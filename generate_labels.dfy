/**
 * The annotation converter: rewrites a COCO-style annotation file whose
 * segmentations are RLE masks or polygons into per-image YOLO label entries
 * (class index and unit-space polygon) and an annotation list in polygon form.
 *
 * Decoding a mask and finding, choosing and simplifying its contour are foreign
 * library calls; they are the `ContourFinder` parameter, which returns the
 * flattened pixel-space contour or `None` when the mask has no contour.
 */
module GenerateLabels {
  import opened Wrappers
  import opened Coco
  import opened PosixPath

  /** The exceptions that abort a conversion run. */
  datatype Error =
    | MissingImageField                   // KeyError while building the image table
    | MissingCategoryId                   // KeyError in the declared-category comprehension
    | UnknownCategory(categoryId: int)    // KeyError looking up the class index
    | EmptyPolygonList(annotationId: int) // IndexError on `poly_list[0]`
    | IndexOutOfRange                     // IndexError on the y of an odd-length coordinate list
    | ZeroDivision                        // ZeroDivisionError dividing by a zero width or height
    | BoxUnpack                           // ValueError unpacking a box that is not four numbers
    | NoContourUnpack(annotationId: int)  // ValueError unpacking the bare `[]` (as written only)
    | NotIterable(annotationId: int)      // TypeError testing `'counts' in` a scalar segmentation

  /** Why an annotation was skipped (and reported) instead of converted. */
  datatype SkipReason = MissingFields | UnknownImage(imageId: int) | NoContour | UnknownFormat

  /** A skipped annotation, by its position in the annotation list. */
  datatype Skip = Skip(index: nat, reason: SkipReason)

  /** What the converter keeps of an image record. */
  datatype ImageInfo = ImageInfo(fileName: string, width: int, height: int)

  /** One line of a label file: a class index and a unit-space polygon. */
  datatype Label = Label(classIdx: nat, polygon: seq<real>)

  /** RLE decoding, contour extraction and simplification: (mask, height, width) to a flattened contour. */
  type ContourFinder = (Rle, int, int) -> Option<seq<real>>

  // ---------------------------------------------------------------------
  // Coordinate normalisation
  // ---------------------------------------------------------------------

  /**
   * What the normalisation loop computes: every x divided by the width and
   * every y by the height, or the exception the loop raises first.
   */
  function Normalized(p: seq<real>, width: int, height: int): Result<seq<real>, Error>
  {
    if |p| == 0 then Ok([])
    else if width == 0 then Err(ZeroDivision)
    else if |p| == 1 then Err(IndexOutOfRange)
    else if height == 0 then Err(ZeroDivision)
    else if |p| % 2 == 1 then Err(IndexOutOfRange)
    else Ok(Scaled(p, width, height))
  }

  /** Even positions over the width, odd positions over the height. */
  function Scaled(p: seq<real>, width: int, height: int): seq<real>
    requires width != 0 && height != 0
  {
    seq(|p|, i requires 0 <= i < |p| => if i % 2 == 0 then p[i] / width as real else p[i] / height as real)
  }

  /** The loop over coordinate pairs, appending x / width and y / height. */
  method NormalizeCoords(p: seq<real>, width: int, height: int) returns (r: Result<seq<real>, Error>)
    ensures r == Normalized(p, width, height)
  {
    var out: seq<real> := [];
    var i := 0;
    while i < |p|
      invariant 0 <= i <= |p| && i % 2 == 0 && |out| == i
      invariant 0 < i ==> width != 0 && height != 0
      invariant i == 0 ==> out == []
      invariant 0 < i ==> out == Scaled(p[..i], width, height)
    {
      if width == 0 {
        return Err(ZeroDivision);
      }
      out := out + [p[i] / width as real];
      if i + 1 >= |p| {
        return Err(IndexOutOfRange);
      }
      if height == 0 {
        return Err(ZeroDivision);
      }
      out := out + [p[i + 1] / height as real];
      ScaledAppend(p, width, height, i);
      i := i + 2;
    }
    assert p[..i] == p;
    return Ok(out);
  }

  /** Scaling a prefix one pair longer appends the scaled pair. */
  lemma ScaledAppend(p: seq<real>, width: int, height: int, i: nat)
    requires width != 0 && height != 0 && i % 2 == 0 && i + 1 < |p|
    ensures Scaled(p[..i + 2], width, height) ==
            (if i == 0 then [] else Scaled(p[..i], width, height)) + [p[i] / width as real] + [p[i + 1] / height as real]
  {
    var next := (if i == 0 then [] else Scaled(p[..i], width, height)) + [p[i] / width as real] + [p[i + 1] / height as real];
    assert (i + 1) % 2 == 1;
    forall k | 0 <= k < i + 2
      ensures next[k] == if k % 2 == 0 then p[k] / width as real else p[k] / height as real
    {
      if k < i {
        assert next[k] == Scaled(p[..i], width, height)[k];
      }
    }
  }

  /** Normalisation succeeds exactly on an empty list, or an even-length one with non-zero dimensions. */
  lemma NormalizedSucceeds(p: seq<real>, width: int, height: int)
    ensures Normalized(p, width, height).Ok?
        <==> |p| == 0 || (width != 0 && height != 0 && |p| % 2 == 0)
  {
  }

  /** Normalisation keeps the length and the pair order, dividing x by width and y by height. */
  lemma NormalizedPairs(p: seq<real>, width: int, height: int)
    requires Normalized(p, width, height).Ok?
    ensures var out := Normalized(p, width, height).value;
            |out| == |p| &&
            forall k :: 0 <= k < |p| / 2 ==>
              out[2 * k] == p[2 * k] / width as real && out[2 * k + 1] == p[2 * k + 1] / height as real
  {
  }

  /** Multiplying x back by the width and y by the height. */
  function Denormalized(q: seq<real>, width: int, height: int): (p: seq<real>)
    ensures |p| == |q|
  {
    seq(|q|, i requires 0 <= i < |q| => if i % 2 == 0 then q[i] * width as real else q[i] * height as real)
  }

  /** Normalisation loses nothing: scaling back gives the pixel coordinates. */
  lemma NormalizedRoundTrip(p: seq<real>, width: int, height: int)
    requires Normalized(p, width, height).Ok?
    ensures Denormalized(Normalized(p, width, height).value, width, height) == p
  {
    var out := Normalized(p, width, height).value;
    var back := Denormalized(out, width, height);
    forall i | 0 <= i < |p| ensures back[i] == p[i] {
      if i % 2 == 0 {
        assert out[i] == p[i] / width as real;
      } else {
        assert out[i] == p[i] / height as real;
      }
    }
  }

  // ---------------------------------------------------------------------
  // Bounding boxes
  // ---------------------------------------------------------------------

  /** `normalize_bb(bbox, img_h, img_w)`: box centre and extent in unit space. */
  function NormalizeBox(bbox: seq<real>, imgH: int, imgW: int): (r: Result<seq<real>, Error>)
    ensures r.Ok? <==> |bbox| == 4 && imgW != 0 && imgH != 0
    ensures r.Err? ==> r.error == if |bbox| != 4 then BoxUnpack else ZeroDivision
    ensures r.Ok? ==> |r.value| == 4
  {
    if |bbox| != 4 then Err(BoxUnpack)
    else if imgW == 0 || imgH == 0 then Err(ZeroDivision)
    else
      var (xMin, yMin, w, h) := (bbox[0], bbox[1], bbox[2], bbox[3]);
      var (xMax, yMax) := (xMin + w, yMin + h);
      Ok([(xMin + xMax) / 2.0 / imgW as real, (yMin + yMax) / 2.0 / imgH as real,
          w / imgW as real, h / imgH as real])
  }

  /** The result is the centre, then the extent, each over the matching image dimension. */
  lemma NormalizeBoxCentre(bbox: seq<real>, imgH: int, imgW: int)
    requires |bbox| == 4 && imgW != 0 && imgH != 0
    ensures NormalizeBox(bbox, imgH, imgW) == Ok([
              (bbox[0] + bbox[2] / 2.0) / imgW as real, (bbox[1] + bbox[3] / 2.0) / imgH as real,
              bbox[2] / imgW as real, bbox[3] / imgH as real])
  {
  }

  /** The corner and extent are recovered from the normalised box. */
  lemma NormalizeBoxRoundTrip(bbox: seq<real>, imgH: int, imgW: int)
    requires NormalizeBox(bbox, imgH, imgW).Ok?
    ensures var r := NormalizeBox(bbox, imgH, imgW).value;
            |r| == 4 && |bbox| == 4 &&
            bbox[0] == (r[0] - r[2] / 2.0) * (imgW as real) &&
            bbox[1] == (r[1] - r[3] / 2.0) * (imgH as real) &&
            bbox[2] == r[2] * (imgW as real) && bbox[3] == r[3] * (imgH as real)
  {
    var r := NormalizeBox(bbox, imgH, imgW).value;
    CentreBack(bbox[0], bbox[2], imgW as real);
    CentreBack(bbox[1], bbox[3], imgH as real);
  }

  /** Scaling one centre coordinate and its extent back recovers the corner. */
  lemma CentreBack(lo: real, extent: real, d: real)
    requires d != 0.0
    ensures ((lo + (lo + extent)) / 2.0 / d - extent / d / 2.0) * d == lo
    ensures (extent / d) * d == extent
  {
    var c := (lo + (lo + extent)) / 2.0;
    assert c - extent / 2.0 == lo;
    assert c / d - extent / d / 2.0 == (c - extent / 2.0) / d;
  }

  /** A box that lies inside a positive-size image normalises into the unit square. */
  lemma NormalizeBoxInUnitSquare(bbox: seq<real>, imgH: int, imgW: int)
    requires |bbox| == 4 && imgW > 0 && imgH > 0
    requires 0.0 <= bbox[0] && 0.0 <= bbox[2] && bbox[0] + bbox[2] <= imgW as real
    requires 0.0 <= bbox[1] && 0.0 <= bbox[3] && bbox[1] + bbox[3] <= imgH as real
    ensures var r := NormalizeBox(bbox, imgH, imgW).value;
            forall k :: 0 <= k < 4 ==> 0.0 <= r[k] <= 1.0
  {
    var W, H := imgW as real, imgH as real;
    assert 0.0 <= (bbox[0] + bbox[0] + bbox[2]) / 2.0 <= W;
    assert 0.0 <= (bbox[1] + bbox[1] + bbox[3]) / 2.0 <= H;
    DivideIntoUnit((bbox[0] + bbox[0] + bbox[2]) / 2.0, W);
    DivideIntoUnit((bbox[1] + bbox[1] + bbox[3]) / 2.0, H);
    DivideIntoUnit(bbox[2], W);
    DivideIntoUnit(bbox[3], H);
  }

  lemma DivideIntoUnit(a: real, d: real)
    requires 0.0 <= a <= d && 0.0 < d
    ensures 0.0 <= a / d <= 1.0
  {
  }

  // ---------------------------------------------------------------------
  // The largest sub-polygon
  // ---------------------------------------------------------------------

  /** `max(poly_list, key=len)`: the index of the first of the longest polygons. */
  function LongestIndex(ps: seq<seq<real>>): (k: nat)
    requires |ps| > 0
    ensures k < |ps|
    ensures forall j :: 0 <= j < |ps| ==> |ps[j]| <= |ps[k]|
    ensures forall j :: 0 <= j < k ==> |ps[j]| < |ps[k]|
  {
    if |ps| == 1 then 0
    else
      var k := LongestIndex(ps[..|ps| - 1]);
      if |ps[|ps| - 1]| > |ps[k]| then |ps| - 1 else k
  }

  // ---------------------------------------------------------------------
  // RLE annotations
  // ---------------------------------------------------------------------

  /**
   * `rle_to_yolo_polygon` as the converter uses it: `None` when the mask has
   * no contour, otherwise the normalised and the raw flattened contour.
   */
  function RlePolygon(rle: Rle, height: int, width: int, contour: ContourFinder)
    : Result<Option<(seq<real>, seq<real>)>, Error>
  {
    match contour(rle, height, width)
    case None => Ok(None)
    case Some(flat) =>
      match Normalized(flat, width, height)
      case Err(e) => Err(e)
      case Ok(normalized) => Ok(Some((normalized, flat)))
  }

  /** The contour step followed by the normalisation loop. */
  method RleToYoloPolygon(rle: Rle, height: int, width: int, contour: ContourFinder)
    returns (r: Result<Option<(seq<real>, seq<real>)>, Error>)
    ensures r == RlePolygon(rle, height, width, contour)
  {
    var found := contour(rle, height, width);
    if found.None? {
      return Ok(None);
    }
    var normalized := NormalizeCoords(found.value, width, height);
    if normalized.Err? {
      return Err(normalized.error);
    }
    return Ok(Some((normalized.value, found.value)));
  }

  /** What `rle_to_yolo_polygon` returns as written: a bare empty list, or a pair. */
  datatype Returned = EmptyList | Pair(normalized: seq<real>, flattened: seq<real>)

  function RleToYoloPolygonAsWritten(rle: Rle, height: int, width: int, contour: ContourFinder)
    : Result<Returned, Error>
  {
    match contour(rle, height, width)
    case None => Ok(EmptyList)
    case Some(flat) =>
      match Normalized(flat, width, height)
      case Err(e) => Err(e)
      case Ok(normalized) => Ok(Pair(normalized, flat))
  }

  /** `yolo_polygon, raw_polygon = ...`: unpacking the empty list raises. */
  function UnpackAsWritten(v: Returned, annotationId: int): Result<(seq<real>, seq<real>), Error>
  {
    match v
    case EmptyList => Err(NoContourUnpack(annotationId))
    case Pair(n, f) => Ok((n, f))
  }

  /** As written, a mask without a contour aborts the run instead of being skipped. */
  lemma NoContourRaisesAsWritten(rle: Rle, height: int, width: int, contour: ContourFinder, annotationId: int)
    requires contour(rle, height, width) == None
    ensures RleToYoloPolygonAsWritten(rle, height, width, contour) == Ok(EmptyList)
    ensures UnpackAsWritten(EmptyList, annotationId) == Err(NoContourUnpack(annotationId))
  {
  }

  /**
   * As written, the "no contours" skip is reached only by a contour that has
   * no coordinates at all, which contour finding never returns.
   */
  lemma SkipOnlyForEmptyContourAsWritten(rle: Rle, height: int, width: int, contour: ContourFinder)
    requires RleToYoloPolygonAsWritten(rle, height, width, contour).Ok?
    requires RleToYoloPolygonAsWritten(rle, height, width, contour).value.Pair?
    ensures var v := RleToYoloPolygonAsWritten(rle, height, width, contour).value;
            v.normalized == [] <==> v.flattened == []
  {
  }

  // ---------------------------------------------------------------------
  // Image table and category mapping
  // ---------------------------------------------------------------------

  predicate Complete(img: Image)
  {
    img.id.Some? && img.fileName.Some? && img.width.Some? && img.height.Some?
  }

  function InfoOf(img: Image): ImageInfo
    requires Complete(img)
  {
    ImageInfo(img.fileName.value, img.width.value, img.height.value)
  }

  /** The image-id table; a later image with the same id replaces an earlier one. */
  function ImageTable(images: seq<Image>): Result<map<int, ImageInfo>, Error>
  {
    if images == [] then Ok(map[])
    else
      match ImageTable(images[..|images| - 1])
      case Err(e) => Err(e)
      case Ok(t) =>
        var img := images[|images| - 1];
        if Complete(img) then Ok(t[img.id.value := InfoOf(img)]) else Err(MissingImageField)
  }

  /** The table exists exactly when every image has its four fields. */
  lemma {:induction false} ImageTableSucceeds(images: seq<Image>)
    ensures ImageTable(images).Ok? <==> forall i :: 0 <= i < |images| ==> Complete(images[i])
  {
    if images != [] {
      var pre := images[..|images| - 1];
      ImageTableSucceeds(pre);
      assert forall i :: 0 <= i < |pre| ==> pre[i] == images[i];
    }
  }

  /** The table holds exactly the ids of the images. */
  lemma {:induction false} ImageTableKeys(images: seq<Image>)
    requires ImageTable(images).Ok?
    ensures forall id :: id in ImageTable(images).value <==> exists i :: 0 <= i < |images| && images[i].id == Some(id)
  {
    if images != [] {
      var pre := images[..|images| - 1];
      assert ImageTable(pre).Ok?;
      ImageTableKeys(pre);
      assert forall i :: 0 <= i < |pre| ==> pre[i] == images[i];
    }
  }

  /** Each id holds the record of the last image carrying it. */
  lemma {:induction false} ImageTableLastWins(images: seq<Image>, i: nat)
    requires ImageTable(images).Ok? && i < |images|
    requires forall j :: i < j < |images| ==> images[j].id != images[i].id
    ensures Complete(images[i]) && images[i].id.value in ImageTable(images).value
    ensures ImageTable(images).value[images[i].id.value] == InfoOf(images[i])
  {
    var pre := images[..|images| - 1];
    assert ImageTable(pre).Ok?;
    if i < |images| - 1 {
      assert forall j :: 0 <= j < |pre| ==> pre[j] == images[j];
      ImageTableLastWins(pre, i);
    }
  }

  /** The loop building `image_id_to_info`. */
  method BuildImageTable(images: seq<Image>) returns (r: Result<map<int, ImageInfo>, Error>)
    ensures r == ImageTable(images)
  {
    var table: map<int, ImageInfo> := map[];
    var i := 0;
    while i < |images|
      invariant 0 <= i <= |images|
      invariant ImageTable(images[..i]) == Ok(table)
    {
      assert images[..i + 1][..i] == images[..i];
      var img := images[i];
      if !Complete(img) {
        ImageTableStaysFailed(images, i + 1);
        return Err(MissingImageField);
      }
      table := table[img.id.value := InfoOf(img)];
      i := i + 1;
    }
    assert images[..i] == images;
    return Ok(table);
  }

  lemma {:induction false} ImageTableStaysFailed(images: seq<Image>, k: nat)
    requires k <= |images| && ImageTable(images[..k]).Err?
    ensures ImageTable(images) == ImageTable(images[..k])
    decreases |images| - k
  {
    if k < |images| {
      assert images[..k + 1][..k] == images[..k];
      ImageTableStaysFailed(images, k + 1);
    } else {
      assert images[..k] == images;
    }
  }

  predicate AllHaveIds(cats: seq<Category>)
  {
    forall i :: 0 <= i < |cats| ==> cats[i].id.Some?
  }

  /** `{cat['id']: idx for idx, cat in enumerate(categories)}` */
  function DeclaredMapping(cats: seq<Category>): map<int, nat>
    requires AllHaveIds(cats)
  {
    if cats == [] then map[]
    else
      var pre := cats[..|cats| - 1];
      assert AllHaveIds(pre) by { assert forall i :: 0 <= i < |pre| ==> pre[i] == cats[i]; }
      DeclaredMapping(pre)[cats[|cats| - 1].id.value := |cats| - 1]
  }

  /** Every declared id is mapped, to the position of the last category carrying it. */
  lemma {:induction false} DeclaredMappingLast(cats: seq<Category>)
    requires AllHaveIds(cats)
    ensures var m := DeclaredMapping(cats);
            (forall i :: 0 <= i < |cats| ==> cats[i].id.value in m) &&
            (forall id :: id in m ==>
               m[id] < |cats| && cats[m[id]].id == Some(id) &&
               forall j :: m[id] < j < |cats| ==> cats[j].id != Some(id))
  {
    if cats != [] {
      var n := |cats| - 1;
      var pre := cats[..n];
      assert AllHaveIds(pre) by { assert forall i :: 0 <= i < |pre| ==> pre[i] == cats[i]; }
      DeclaredMappingLast(pre);
      var last := cats[n].id.value;
      var mp := DeclaredMapping(pre);
      var m := DeclaredMapping(cats);
      assert m == mp[last := n];
      forall i | 0 <= i < |cats| ensures cats[i].id.value in m {
        if i < n { assert cats[i] == pre[i]; }
      }
      forall id | id in m
        ensures m[id] < |cats| && cats[m[id]].id == Some(id) &&
                forall j :: m[id] < j < |cats| ==> cats[j].id != Some(id)
      {
        if id != last {
          assert id in mp && m[id] == mp[id];
          assert cats[mp[id]] == pre[mp[id]];
          forall j | mp[id] < j < |cats| ensures cats[j].id != Some(id) {
            if j < n { assert cats[j] == pre[j]; }
          }
        }
      }
    }
  }

  /** With distinct declared ids, every category maps to its own position. */
  lemma DeclaredMappingPositions(cats: seq<Category>)
    requires AllHaveIds(cats)
    requires forall i, j :: 0 <= i < j < |cats| ==> cats[i].id != cats[j].id
    ensures forall i :: 0 <= i < |cats| ==>
              cats[i].id.value in DeclaredMapping(cats) && DeclaredMapping(cats)[cats[i].id.value] == i
  {
    DeclaredMappingLast(cats);
  }

  /** The category ids that annotations reference. */
  function ReferencedCategories(anns: seq<Annotation>): set<int>
  {
    set a | a in anns && a.categoryId.Some? :: a.categoryId.value
  }

  /** The loop collecting `unique_cats`. */
  method CollectCategoryIds(anns: seq<Annotation>) returns (ids: set<int>)
    ensures forall c :: c in ids <==> exists i :: 0 <= i < |anns| && anns[i].categoryId == Some(c)
    ensures ids == ReferencedCategories(anns)
  {
    ids := {};
    var i := 0;
    while i < |anns|
      invariant 0 <= i <= |anns|
      invariant forall c :: c in ids <==> exists k :: 0 <= k < i && anns[k].categoryId == Some(c)
    {
      if anns[i].categoryId.Some? {
        ids := ids + {anns[i].categoryId.value};
      }
      i := i + 1;
    }
    forall c | c in ids ensures c in ReferencedCategories(anns) {
      var k :| 0 <= k < |anns| && anns[k].categoryId == Some(c);
      assert anns[k] in anns;
    }
  }

  /** How many members of `s` lie below `x`: the index of `x` in `sorted(s)`. */
  function Rank(s: set<int>, x: int): nat
  {
    |set y | y in s && y < x|
  }

  /** `{cat_id: idx for idx, cat_id in enumerate(sorted(unique_cats))}` */
  function SortedMapping(s: set<int>): (m: map<int, nat>)
    ensures m.Keys == s
  {
    map x | x in s :: Rank(s, x)
  }

  lemma ProperSubsetSmaller(a: set<int>, b: set<int>, x: int)
    requires a <= b && x in b && x !in a
    ensures |a| < |b|
  {
    assert b == a + (b - a);
    assert x in b - a;
  }

  /** The sorted mapping lands in `0..|s|-1`. */
  lemma RankBelowSize(s: set<int>, x: int)
    requires x in s
    ensures Rank(s, x) < |s|
  {
    var below := set y | y in s && y < x;
    ProperSubsetSmaller(below, s, x);
  }

  /** The sorted mapping is strictly increasing, hence one-to-one. */
  lemma RankIncreasing(s: set<int>, x: int, y: int)
    requires x in s && y in s && x < y
    ensures Rank(s, x) < Rank(s, y)
  {
    var belowX := set z | z in s && z < x;
    var belowY := set z | z in s && z < y;
    ProperSubsetSmaller(belowX, belowY, x);
  }

  ghost predicate IsMax(m: int, s: set<int>)
  {
    m in s && forall y :: y in s ==> y <= m
  }

  /** Some member of a non-empty set. */
  lemma Element<T>(s: set<T>) returns (x: T)
    requires s != {}
    ensures x in s
  {
    x :| x in s;
  }

  lemma {:induction false} MaximumExists(s: set<int>)
    requires s != {}
    ensures exists m :: IsMax(m, s)
    decreases s
  {
    var x := Element(s);
    var rest := s - {x};
    if rest == {} {
      assert IsMax(x, s) by {
        forall y | y in s ensures y <= x { assert y !in rest; }
      }
    } else {
      MaximumExists(rest);
      var m :| IsMax(m, rest);
      var top := if x > m then x else m;
      assert IsMax(top, s) by {
        forall y | y in s ensures y <= top { if y != x { assert y in rest; } }
      }
    }
  }

  /** Every index in `0..|s|-1` is the rank of some member of `s`. */
  lemma {:induction false} RankOnto(s: set<int>, k: nat)
    requires k < |s|
    ensures exists x :: x in s && Rank(s, x) == k
    decreases s
  {
    MaximumExists(s);
    var top :| IsMax(top, s);
    var rest := s - {top};
    assert |rest| == |s| - 1;
    if k == |s| - 1 {
      assert (set y | y in s && y < top) == rest;
      assert Rank(s, top) == k;
    } else {
      RankOnto(rest, k);
      var x :| x in rest && Rank(rest, x) == k;
      assert (set y | y in s && y < x) == (set y | y in rest && y < x);
      assert Rank(s, x) == k;
    }
  }

  /** Without declared categories the mapping is an order-preserving bijection onto `0..k-1`. */
  lemma SortedMappingBijective(s: set<int>)
    ensures var m := SortedMapping(s);
            (forall x :: x in s ==> m[x] < |s|) &&
            (forall x, y :: x in s && y in s && x < y ==> m[x] < m[y]) &&
            (forall k: nat :: k < |s| ==> k in m.Values)
  {
    var m := SortedMapping(s);
    forall x | x in s ensures m[x] < |s| { RankBelowSize(s, x); }
    forall x, y | x in s && y in s && x < y ensures m[x] < m[y] { RankIncreasing(s, x, y); }
    forall k: nat | k < |s| ensures k in m.Values {
      RankOnto(s, k);
      var x :| x in s && Rank(s, x) == k;
      assert m[x] == k;
    }
  }

  /** The category mapping of lines 102-113. */
  function CategoryMapping(data: Dataset): (r: Result<map<int, nat>, Error>)
    ensures r.Err? <==> data.categories.Some? && exists i :: 0 <= i < |data.categories.value| && data.categories.value[i].id.None?
    ensures r.Ok? && data.categories.None? ==> r.value.Keys == ReferencedCategories(data.annotations)
  {
    match data.categories
    case Some(cats) => if AllHaveIds(cats) then Ok(DeclaredMapping(cats)) else Err(MissingCategoryId)
    case None => Ok(SortedMapping(ReferencedCategories(data.annotations)))
  }

  /** Without declared categories every referenced id has a class index, so no lookup fails. */
  lemma SortedMappingCoversReferenced(data: Dataset)
    requires data.categories.None?
    ensures CategoryMapping(data).Ok?
    ensures forall a :: a in data.annotations && a.categoryId.Some? ==>
              a.categoryId.value in CategoryMapping(data).value
  {
  }

  // ---------------------------------------------------------------------
  // One annotation
  // ---------------------------------------------------------------------

  /** What the converter has at hand when it reaches the annotation loop. */
  datatype Context = Context(table: map<int, ImageInfo>, mapping: map<int, nat>, contour: ContourFinder)

  /** What happens to one annotation. */
  datatype Outcome =
    | Dropped(reason: SkipReason)                                 // nothing recorded
    | Keyed(imageId: int, reason: SkipReason)                     // empty label entry created, then skipped
    | Accepted(imageId: int, entry: Label, rewritten: Annotation) // label appended, annotation kept
    | Failed(error: Error)                                        // the run aborts

  predicate HasRequiredFields(ann: Annotation)
  {
    ann.id.Some? && ann.imageId.Some? && ann.categoryId.Some? && ann.segmentation.Some?
  }

  /** The body of the annotation loop, with the no-contour case skipped as its comment intends. */
  function Classify(ann: Annotation, ctx: Context): Outcome
  {
    if !HasRequiredFields(ann) then Dropped(MissingFields)
    else if ann.imageId.value !in ctx.table then Dropped(UnknownImage(ann.imageId.value))
    else if ann.categoryId.value !in ctx.mapping then Failed(UnknownCategory(ann.categoryId.value))
    else
      var img := ann.imageId.value;
      var info := ctx.table[img];
      var cls := ctx.mapping[ann.categoryId.value];
      match ann.segmentation.value
      case RleMask(rle) =>
        (match RlePolygon(rle, info.height, info.width, ctx.contour)
         case Err(e) => Failed(e)
         case Ok(None) => Keyed(img, NoContour)
         case Ok(Some((yolo, raw))) =>
           if yolo == [] then Keyed(img, NoContour)
           else Accepted(img, Label(cls, yolo), ann.(segmentation := Some(Nested([raw])))))
      case Flat(p) =>
        if p == [] then Failed(EmptyPolygonList(ann.id.value))
        else FromPolygon(ann, img, cls, p, info)
      case Nested(ps) =>
        if ps == [] then Failed(EmptyPolygonList(ann.id.value))
        else FromPolygon(ann, img, cls, ps[LongestIndex(ps)], info)
      case Scalar => Failed(NotIterable(ann.id.value))
      case Other => Keyed(img, UnknownFormat)
  }

  /** The polygon path: normalise the chosen polygon and keep the annotation unchanged. */
  function FromPolygon(ann: Annotation, img: int, cls: nat, points: seq<real>, info: ImageInfo): Outcome
  {
    match Normalized(points, info.width, info.height)
    case Err(e) => Failed(e)
    case Ok(yolo) => Accepted(img, Label(cls, yolo), ann)
  }

  /** An annotation is dropped exactly when a required field is missing or its image is unknown. */
  lemma DroppedExactly(ann: Annotation, ctx: Context)
    ensures Classify(ann, ctx).Dropped?
        <==> !HasRequiredFields(ann) || ann.imageId.value !in ctx.table
    ensures Classify(ann, ctx) == Dropped(MissingFields) <==> !HasRequiredFields(ann)
  {
  }

  /**
   * An accepted annotation: RLE ones are copied with the raw contour as their
   * only polygon, polygon ones are kept as they are; the label carries the
   * class index and the normalised polygon.
   */
  lemma AcceptedRewrite(ann: Annotation, ctx: Context)
    requires Classify(ann, ctx).Accepted?
    ensures var o := Classify(ann, ctx);
            var info := ctx.table[ann.imageId.value];
            HasRequiredFields(ann) && o.imageId == ann.imageId.value &&
            o.entry.classIdx == ctx.mapping[ann.categoryId.value] &&
            match ann.segmentation.value
            case RleMask(rle) =>
              var raw := ctx.contour(rle, info.height, info.width).value;
              o.rewritten == ann.(segmentation := Some(Nested([raw]))) &&
              Normalized(raw, info.width, info.height) == Ok(o.entry.polygon) && o.entry.polygon != []
            case Flat(p) =>
              o.rewritten == ann && Normalized(p, info.width, info.height) == Ok(o.entry.polygon)
            case Nested(ps) =>
              o.rewritten == ann && |ps| > 0 &&
              Normalized(ps[LongestIndex(ps)], info.width, info.height) == Ok(o.entry.polygon)
            case Scalar => false
            case Other => false
  {
  }

  /** The corrected no-contour path: the image gets its entry, the annotation is skipped. */
  lemma NoContourIsSkipped(ann: Annotation, ctx: Context)
    requires HasRequiredFields(ann) && ann.imageId.value in ctx.table && ann.categoryId.value in ctx.mapping
    requires ann.segmentation.value.RleMask?
    requires var info := ctx.table[ann.imageId.value];
             ctx.contour(ann.segmentation.value.rle, info.height, info.width) == None
    ensures Classify(ann, ctx) == Keyed(ann.imageId.value, NoContour)
  {
  }

  /** A number, a boolean or null as segmentation makes the `'counts' in` test raise, which aborts the run. */
  lemma ScalarSegmentationRaises(ann: Annotation, ctx: Context)
    requires HasRequiredFields(ann) && ann.imageId.value in ctx.table && ann.categoryId.value in ctx.mapping
    requires ann.segmentation.value.Scalar?
    ensures Classify(ann, ctx) == Failed(NotIterable(ann.id.value))
  {
  }

  /**
   * The loop body as written: a mask without a contour gets the bare `[]`,
   * whose unpacking raises; every other annotation goes as in `Classify`.
   */
  function ClassifyAsWritten(ann: Annotation, ctx: Context): Outcome
  {
    if HasRequiredFields(ann) && ann.imageId.value in ctx.table && ann.categoryId.value in ctx.mapping
       && ann.segmentation.value.RleMask?
    then
      var info := ctx.table[ann.imageId.value];
      match RleToYoloPolygonAsWritten(ann.segmentation.value.rle, info.height, info.width, ctx.contour)
      case Ok(EmptyList) => Failed(NoContourUnpack(ann.id.value))
      case _ => Classify(ann, ctx)
    else Classify(ann, ctx)
  }

  /**
   * As written, the no-contour mask that the corrected loop body skips aborts
   * the run; the two bodies differ on no other annotation.
   */
  lemma NoContourAbortsAsWritten(ann: Annotation, ctx: Context)
    ensures ClassifyAsWritten(ann, ctx) != Classify(ann, ctx) <==>
              HasRequiredFields(ann) && ann.imageId.value in ctx.table && ann.categoryId.value in ctx.mapping &&
              ann.segmentation.value.RleMask? &&
              var info := ctx.table[ann.imageId.value];
              ctx.contour(ann.segmentation.value.rle, info.height, info.width) == None
    ensures ClassifyAsWritten(ann, ctx) != Classify(ann, ctx) ==>
              ClassifyAsWritten(ann, ctx) == Failed(NoContourUnpack(ann.id.value)) &&
              Classify(ann, ctx) == Keyed(ann.imageId.value, NoContour)
  {
  }

  // ---------------------------------------------------------------------
  // The whole annotation list, stated per annotation
  // ---------------------------------------------------------------------

  /** The rewritten annotation list: the accepted annotations' rewrites, in input order. */
  function NewAnnotations(anns: seq<Annotation>, ctx: Context): seq<Annotation>
  {
    if anns == [] then []
    else
      NewAnnotations(anns[..|anns| - 1], ctx) +
      match Classify(anns[|anns| - 1], ctx)
      case Accepted(_, _, r) => [r]
      case _ => []
  }

  /** The label entries of one image: its accepted annotations' labels, in input order. */
  function LabelsOf(anns: seq<Annotation>, img: int, ctx: Context): seq<Label>
  {
    if anns == [] then []
    else
      LabelsOf(anns[..|anns| - 1], img, ctx) +
      match Classify(anns[|anns| - 1], ctx)
      case Accepted(i, l, _) => if i == img then [l] else []
      case _ => []
  }

  /** The images that get a label entry, including those whose annotations were all skipped after validation. */
  function LabelKeys(anns: seq<Annotation>, ctx: Context): set<int>
  {
    if anns == [] then {}
    else
      LabelKeys(anns[..|anns| - 1], ctx) +
      match Classify(anns[|anns| - 1], ctx)
      case Accepted(i, _, _) => {i}
      case Keyed(i, _) => {i}
      case _ => {}
  }

  /** The skip log, by position in the list. */
  function Skips(anns: seq<Annotation>, ctx: Context): seq<Skip>
  {
    if anns == [] then []
    else
      Skips(anns[..|anns| - 1], ctx) +
      match Classify(anns[|anns| - 1], ctx)
      case Dropped(why) => [Skip(|anns| - 1, why)]
      case Keyed(_, why) => [Skip(|anns| - 1, why)]
      case _ => []
  }

  /** The exception of the first annotation that raises, if any. */
  function FirstFailure(anns: seq<Annotation>, ctx: Context): Option<Error>
  {
    if anns == [] then None
    else
      match FirstFailure(anns[..|anns| - 1], ctx)
      case Some(e) => Some(e)
      case None =>
        match Classify(anns[|anns| - 1], ctx)
        case Failed(e) => Some(e)
        case _ => None
  }

  lemma {:induction false} FirstFailureIsFirst(anns: seq<Annotation>, ctx: Context)
    ensures FirstFailure(anns, ctx).None? <==> forall i :: 0 <= i < |anns| ==> !Classify(anns[i], ctx).Failed?
    ensures FirstFailure(anns, ctx).Some? ==>
              exists k :: 0 <= k < |anns| && Classify(anns[k], ctx) == Failed(FirstFailure(anns, ctx).value) &&
                forall j :: 0 <= j < k ==> !Classify(anns[j], ctx).Failed?
  {
    if anns != [] {
      var pre := anns[..|anns| - 1];
      FirstFailureIsFirst(pre, ctx);
      assert forall i :: 0 <= i < |pre| ==> pre[i] == anns[i];
    }
  }

  lemma {:induction false} FirstFailureStays(anns: seq<Annotation>, k: nat, ctx: Context)
    requires k <= |anns| && FirstFailure(anns[..k], ctx).Some?
    ensures FirstFailure(anns, ctx) == FirstFailure(anns[..k], ctx)
    decreases |anns| - k
  {
    if k < |anns| {
      assert anns[..k + 1][..k] == anns[..k];
      FirstFailureStays(anns, k + 1, ctx);
    } else {
      assert anns[..k] == anns;
    }
  }

  lemma {:induction false} NewAnnotationsAppend(a: seq<Annotation>, b: seq<Annotation>, ctx: Context)
    ensures NewAnnotations(a + b, ctx) == NewAnnotations(a, ctx) + NewAnnotations(b, ctx)
    decreases |b|
  {
    if b == [] {
      assert a + b == a;
    } else {
      assert (a + b)[..|a + b| - 1] == a + b[..|b| - 1];
      NewAnnotationsAppend(a, b[..|b| - 1], ctx);
    }
  }

  lemma {:induction false} LabelsOfAppend(a: seq<Annotation>, b: seq<Annotation>, img: int, ctx: Context)
    ensures LabelsOf(a + b, img, ctx) == LabelsOf(a, img, ctx) + LabelsOf(b, img, ctx)
    decreases |b|
  {
    if b == [] {
      assert a + b == a;
    } else {
      assert (a + b)[..|a + b| - 1] == a + b[..|b| - 1];
      LabelsOfAppend(a, b[..|b| - 1], img, ctx);
    }
  }

  lemma {:induction false} LabelKeysAppend(a: seq<Annotation>, b: seq<Annotation>, ctx: Context)
    ensures LabelKeys(a + b, ctx) == LabelKeys(a, ctx) + LabelKeys(b, ctx)
    decreases |b|
  {
    if b == [] {
      assert a + b == a;
    } else {
      assert (a + b)[..|a + b| - 1] == a + b[..|b| - 1];
      LabelKeysAppend(a, b[..|b| - 1], ctx);
    }
  }

  lemma {:induction false} FirstFailureAppend(a: seq<Annotation>, b: seq<Annotation>, ctx: Context)
    ensures FirstFailure(a + b, ctx) == if FirstFailure(a, ctx).Some? then FirstFailure(a, ctx) else FirstFailure(b, ctx)
    decreases |b|
  {
    if b == [] {
      assert a + b == a;
    } else {
      assert (a + b)[..|a + b| - 1] == a + b[..|b| - 1];
      FirstFailureAppend(a, b[..|b| - 1], ctx);
    }
  }

  /** A dropped annotation on its own contributes nothing. */
  lemma DroppedAlone(ann: Annotation, ctx: Context)
    requires Classify(ann, ctx).Dropped?
    ensures NewAnnotations([ann], ctx) == [] && LabelKeys([ann], ctx) == {} && FirstFailure([ann], ctx) == None
    ensures forall img :: LabelsOf([ann], img, ctx) == []
  {
    assert [ann][..0] == [];
  }

  lemma DroppedLabels(a: seq<Annotation>, ann: Annotation, b: seq<Annotation>, img: int, ctx: Context)
    requires Classify(ann, ctx).Dropped?
    ensures LabelsOf(a + [ann] + b, img, ctx) == LabelsOf(a + b, img, ctx)
  {
    DroppedAlone(ann, ctx);
    LabelsOfAppend(a, [ann], img, ctx);
    LabelsOfAppend(a + [ann], b, img, ctx);
    LabelsOfAppend(a, b, img, ctx);
  }

  /**
   * A dropped annotation (missing field, unknown image) changes neither the
   * rewritten list, nor the label entries, nor whether and how the run aborts.
   */
  lemma DroppedContributesNothing(a: seq<Annotation>, ann: Annotation, b: seq<Annotation>, ctx: Context)
    requires Classify(ann, ctx).Dropped?
    ensures NewAnnotations(a + [ann] + b, ctx) == NewAnnotations(a + b, ctx)
    ensures LabelKeys(a + [ann] + b, ctx) == LabelKeys(a + b, ctx)
    ensures forall img :: LabelsOf(a + [ann] + b, img, ctx) == LabelsOf(a + b, img, ctx)
    ensures FirstFailure(a + [ann] + b, ctx) == FirstFailure(a + b, ctx)
  {
    DroppedAlone(ann, ctx);
    NewAnnotationsAppend(a, [ann], ctx);
    NewAnnotationsAppend(a + [ann], b, ctx);
    NewAnnotationsAppend(a, b, ctx);
    LabelKeysAppend(a, [ann], ctx);
    LabelKeysAppend(a + [ann], b, ctx);
    LabelKeysAppend(a, b, ctx);
    FirstFailureAppend(a, [ann], ctx);
    FirstFailureAppend(a + [ann], b, ctx);
    FirstFailureAppend(a, b, ctx);
    forall img ensures LabelsOf(a + [ann] + b, img, ctx) == LabelsOf(a + b, img, ctx) {
      DroppedLabels(a, ann, b, img, ctx);
    }
  }

  /** The label entries of every keyed image, as the dictionary `image_annotations`. */
  function LabelMap(anns: seq<Annotation>, ctx: Context): map<int, seq<Label>>
  {
    map img | img in LabelKeys(anns, ctx) :: LabelsOf(anns, img, ctx)
  }

  /** What one outcome does to `image_annotations`: create the key if missing, then append the entry. */
  function Record(m: map<int, seq<Label>>, o: Outcome): (r: map<int, seq<Label>>)
    ensures o.Accepted? ==> r == m[o.imageId := (if o.imageId in m then m[o.imageId] else []) + [o.entry]]
    ensures o.Keyed? ==> r == if o.imageId in m then m else m[o.imageId := []]
    ensures !o.Accepted? && !o.Keyed? ==> r == m
  {
    match o
    case Accepted(img, l, _) => m[img := (if img in m then m[img] else []) + [l]]
    case Keyed(img, _) => if img in m then m else m[img := []]
    case _ => m
  }

  /** An image without a label entry has no labels. */
  lemma {:induction false} LabelsOfUnkeyed(anns: seq<Annotation>, img: int, ctx: Context)
    requires img !in LabelKeys(anns, ctx)
    ensures LabelsOf(anns, img, ctx) == []
  {
    if anns != [] {
      LabelsOfUnkeyed(anns[..|anns| - 1], img, ctx);
    }
  }

  /** Only images in the image table get a label entry, so the lookup when writing label files never fails. */
  lemma {:induction false} LabelKeysInTable(anns: seq<Annotation>, ctx: Context)
    ensures forall img :: img in LabelKeys(anns, ctx) ==> img in ctx.table
  {
    if anns != [] {
      LabelKeysInTable(anns[..|anns| - 1], ctx);
    }
  }

  /** One more annotation extends every reference fold by that annotation's outcome. */
  lemma FoldStep(anns: seq<Annotation>, i: nat, ctx: Context)
    requires i < |anns|
    ensures var pre, o := anns[..i], Classify(anns[i], ctx);
            NewAnnotations(anns[..i + 1], ctx) == NewAnnotations(pre, ctx) + (if o.Accepted? then [o.rewritten] else []) &&
            Skips(anns[..i + 1], ctx) == Skips(pre, ctx) +
              (if o.Dropped? || o.Keyed? then [Skip(i, o.reason)] else []) &&
            LabelMap(anns[..i + 1], ctx) == Record(LabelMap(pre, ctx), o) &&
            FirstFailure(anns[..i + 1], ctx) ==
              (if FirstFailure(pre, ctx).Some? then FirstFailure(pre, ctx)
               else if o.Failed? then Some(o.error) else None)
  {
    var pre, next := anns[..i], anns[..i + 1];
    assert next[..i] == pre;
    assert next[i] == anns[i];
    var o := Classify(anns[i], ctx);
    var m, m' := LabelMap(pre, ctx), LabelMap(next, ctx);
    forall img | img in LabelKeys(next, ctx) ensures img in Record(m, o) && m'[img] == Record(m, o)[img] {
      assert LabelsOf(next, img, ctx) == LabelsOf(pre, img, ctx) + (if o.Accepted? && o.imageId == img then [o.entry] else []);
      if img !in LabelKeys(pre, ctx) {
        assert o.imageId == img;
        LabelsOfUnkeyed(pre, img, ctx);
      }
    }
    assert m'.Keys == Record(m, o).Keys;
  }

  // ---------------------------------------------------------------------
  // The run
  // ---------------------------------------------------------------------

  /** The result of a run: the rewritten file, the label entries per image, and the skip log. */
  datatype Conversion = Conversion(
    data: Dataset,
    labels: map<int, seq<Label>>,
    skipped: seq<Skip>,
    newJsonPath: string)

  /** `os.path.join(output_dir, f"{stem}_polygon{ext}")` for the basename of the input path. */
  function PolygonJsonPath(jsonPath: string, outputDir: string): string
  {
    var (stem, ext) := Splitext(Basename(jsonPath));
    Join(outputDir, stem + "_polygon" + ext)
  }

  /** The output file sits in the output directory and is named `stem_polygon.ext` after the input. */
  lemma PolygonJsonPathName(jsonPath: string, outputDir: string)
    ensures var (stem, ext) := Splitext(Basename(jsonPath));
            Basename(PolygonJsonPath(jsonPath, outputDir)) == stem + "_polygon" + ext &&
            Splitext(Basename(PolygonJsonPath(jsonPath, outputDir))) == (stem + "_polygon", ext)
  {
    var suffix := "_polygon";
    assert '/' !in suffix && '.' !in suffix;
    JoinSuffixedName(outputDir, Basename(jsonPath), suffix);
  }

  /** The path of an image's label file: `labels_dir/stem.txt`. */
  function LabelFilePath(outputDir: string, datasetType: string, fileName: string): string
  {
    Join(Join(Join(outputDir, datasetType), "labels"), Splitext(fileName).0 + ".txt")
  }

  /** A plain image file name gives a label file named after its stem, with the extension `.txt`. */
  lemma LabelFilePathName(outputDir: string, datasetType: string, fileName: string)
    requires '/' !in fileName
    ensures var stem := Splitext(fileName).0;
            Basename(LabelFilePath(outputDir, datasetType, fileName)) == stem + ".txt" &&
            fileName == stem + Splitext(fileName).1
  {
    var (stem, ext) := Splitext(fileName);
    assert '/' !in stem by {
      assert forall i :: 0 <= i < |stem| ==> stem[i] == fileName[i];
    }
    var name := stem + ".txt";
    assert '/' !in name;
    BasenameOfJoin(Join(Join(outputDir, datasetType), "labels"), name);
  }

  /** What a run produces, or the exception that aborts it first. */
  function Convert(data: Dataset, jsonPath: string, outputDir: string, contour: ContourFinder)
    : Result<Conversion, Error>
  {
    match ImageTable(data.images)
    case Err(e) => Err(e)
    case Ok(table) =>
      match CategoryMapping(data)
      case Err(e) => Err(e)
      case Ok(mapping) =>
        var ctx := Context(table, mapping, contour);
        var anns := data.annotations;
        match FirstFailure(anns, ctx)
        case Some(e) => Err(e)
        case None =>
          Ok(Conversion(
            data.(annotations := NewAnnotations(anns, ctx)),
            LabelMap(anns, ctx),
            Skips(anns, ctx),
            PolygonJsonPath(jsonPath, outputDir)))
  }

  /**
   * A run succeeds exactly when the image table and the category mapping are
   * built and no annotation raises. It then keeps the images and categories,
   * replaces the annotations by the rewritten list, gives every keyed image
   * (all of them in the image table) its labels in annotation order, and names
   * the output file after the input.
   */
  lemma ConvertOutcome(data: Dataset, jsonPath: string, outputDir: string, contour: ContourFinder)
    ensures Convert(data, jsonPath, outputDir, contour).Ok? <==>
              ImageTable(data.images).Ok? && CategoryMapping(data).Ok? &&
              FirstFailure(data.annotations, Context(ImageTable(data.images).value, CategoryMapping(data).value, contour)).None?
    ensures Convert(data, jsonPath, outputDir, contour).Ok? ==>
              var c := Convert(data, jsonPath, outputDir, contour).value;
              var ctx := Context(ImageTable(data.images).value, CategoryMapping(data).value, contour);
              c.data.images == data.images && c.data.categories == data.categories &&
              c.data.annotations == NewAnnotations(data.annotations, ctx) &&
              c.labels.Keys == LabelKeys(data.annotations, ctx) &&
              (forall img :: img in c.labels ==> img in ctx.table && c.labels[img] == LabelsOf(data.annotations, img, ctx)) &&
              c.skipped == Skips(data.annotations, ctx) &&
              c.newJsonPath == PolygonJsonPath(jsonPath, outputDir)
  {
    if Convert(data, jsonPath, outputDir, contour).Ok? {
      var ctx := Context(ImageTable(data.images).value, CategoryMapping(data).value, contour);
      LabelKeysInTable(data.annotations, ctx);
    }
  }

  /**
   * `convert_json_to_yolo_labels` on an already loaded file: builds the image
   * table and the category mapping, runs the annotation loop, and replaces
   * the annotation list.
   */
  method ConvertJsonToYoloLabels(data: Dataset, jsonPath: string, outputDir: string, contour: ContourFinder)
    returns (r: Result<Conversion, Error>)
    ensures r == Convert(data, jsonPath, outputDir, contour)
  {
    var tableResult := BuildImageTable(data.images);
    if tableResult.Err? {
      return Err(tableResult.error);
    }
    var table := tableResult.value;
    var mapping: map<int, nat>;
    if data.categories.Some? {
      var cats := data.categories.value;
      if !AllHaveIds(cats) {
        return Err(MissingCategoryId);
      }
      mapping := DeclaredMapping(cats);
    } else {
      var unique := CollectCategoryIds(data.annotations);
      mapping := SortedMapping(unique);
    }
    assert CategoryMapping(data) == Ok(mapping);
    var run := ProcessAnnotations(data.annotations, table, mapping, contour);
    if run.Err? {
      return Err(run.error);
    }
    var (newAnnotations, labels, skipped) := run.value;
    return Ok(Conversion(data.(annotations := newAnnotations), labels, skipped, PolygonJsonPath(jsonPath, outputDir)));
  }

  /** The annotation loop: the rewritten list, the label entries and the skip log, or the first exception. */
  method ProcessAnnotations(anns: seq<Annotation>, table: map<int, ImageInfo>, mapping: map<int, nat>, contour: ContourFinder)
    returns (r: Result<(seq<Annotation>, map<int, seq<Label>>, seq<Skip>), Error>)
    ensures var ctx := Context(table, mapping, contour);
            match FirstFailure(anns, ctx)
            case Some(e) => r == Err(e)
            case None => r == Ok((NewAnnotations(anns, ctx), LabelMap(anns, ctx), Skips(anns, ctx)))
  {
    ghost var ctx := Context(table, mapping, contour);
    var newAnnotations: seq<Annotation> := [];
    var imageAnnotations: map<int, seq<Label>> := map[];
    var skipped: seq<Skip> := [];
    var i := 0;
    while i < |anns|
      invariant 0 <= i <= |anns|
      invariant FirstFailure(anns[..i], ctx) == None
      invariant newAnnotations == NewAnnotations(anns[..i], ctx)
      invariant imageAnnotations == LabelMap(anns[..i], ctx)
      invariant skipped == Skips(anns[..i], ctx)
    {
      FoldStep(anns, i, ctx);
      var outcome := Step(anns[i], i, table, mapping, contour);
      match outcome {
        case Failed(e) =>
          FirstFailureStays(anns, i + 1, ctx);
          return Err(e);
        case Dropped(why) =>
          skipped := skipped + [Skip(i, why)];
        case Keyed(img, why) =>
          if img !in imageAnnotations {
            imageAnnotations := imageAnnotations[img := []];
          }
          skipped := skipped + [Skip(i, why)];
        case Accepted(img, entry, rewritten) =>
          if img !in imageAnnotations {
            imageAnnotations := imageAnnotations[img := []];
          }
          imageAnnotations := imageAnnotations[img := imageAnnotations[img] + [entry]];
          newAnnotations := newAnnotations + [rewritten];
      }
      i := i + 1;
    }
    assert anns[..i] == anns;
    return Ok((newAnnotations, imageAnnotations, skipped));
  }

  /** The body of the annotation loop for one annotation, calling the normalisation loop. */
  method Step(ann: Annotation, index: nat, table: map<int, ImageInfo>, mapping: map<int, nat>, contour: ContourFinder)
    returns (o: Outcome)
    ensures o == Classify(ann, Context(table, mapping, contour))
  {
    if !HasRequiredFields(ann) {
      return Dropped(MissingFields);
    }
    var img := ann.imageId.value;
    if img !in table {
      return Dropped(UnknownImage(img));
    }
    var info := table[img];
    if ann.categoryId.value !in mapping {
      return Failed(UnknownCategory(ann.categoryId.value));
    }
    var cls := mapping[ann.categoryId.value];
    match ann.segmentation.value {
      case RleMask(rle) =>
        var converted := RleToYoloPolygon(rle, info.height, info.width, contour);
        if converted.Err? {
          return Failed(converted.error);
        }
        if converted.value.None? || converted.value.value.0 == [] {
          return Keyed(img, NoContour);
        }
        var (yolo, raw) := converted.value.value;
        return Accepted(img, Label(cls, yolo), ann.(segmentation := Some(Nested([raw]))));
      case Flat(p) =>
        if p == [] {
          return Failed(EmptyPolygonList(ann.id.value));
        }
        o := PolygonOutcome(ann, img, cls, p, info);
      case Nested(ps) =>
        if ps == [] {
          return Failed(EmptyPolygonList(ann.id.value));
        }
        o := PolygonOutcome(ann, img, cls, ps[LongestIndex(ps)], info);
      case Scalar =>
        return Failed(NotIterable(ann.id.value));
      case Other =>
        return Keyed(img, UnknownFormat);
    }
  }

  method PolygonOutcome(ann: Annotation, img: int, cls: nat, points: seq<real>, info: ImageInfo)
    returns (o: Outcome)
    ensures o == FromPolygon(ann, img, cls, points, info)
  {
    var yolo := NormalizeCoords(points, info.width, info.height);
    if yolo.Err? {
      return Failed(yolo.error);
    }
    return Accepted(img, Label(cls, yolo.value), ann);
  }
}
