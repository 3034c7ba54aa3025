/**
 * `split_coco_dataset_by_category`: groups the annotations by category,
 * shuffles each group, cuts it at `int(len * train_ratio)` into a train and
 * a val part, and gives each part the images its annotations reference.
 */
module SplitDataset {
  import opened Wrappers
  import opened Coco
  import opened Seqs

  /** A `KeyError` on a record field, or on an image id missing from the image table. */
  datatype Error = MissingKey(key: string) | UnknownImage(imageId: int)

  /** The shuffle of the group at a position of the category order (a permutation in every use). */
  type Shuffle = (nat, seq<Annotation>) -> seq<Annotation>

  ghost predicate IsPermutation(shuffle: Shuffle)
  {
    forall k, g :: multiset(shuffle(k, g)) == multiset(g)
  }

  // ---------------------------------------------------------------------
  // The image table
  // ---------------------------------------------------------------------

  /** `{img['id']: img for img in images}` over images that all have an id: the last one wins. */
  function ImageTable(images: seq<Image>): map<int, Image>
  {
    if images == [] then map[]
    else
      var last := images[|images| - 1];
      var t := ImageTable(images[..|images| - 1]);
      if last.id.Some? then t[last.id.value := last] else t
  }

  /** Every entry of the table is an image record carrying its key as id, and every id is a key. */
  lemma {:induction false} ImageTableIds(images: seq<Image>)
    ensures forall id :: id in ImageTable(images) ==> ImageTable(images)[id].id == Some(id)
    ensures forall id :: id in ImageTable(images) ==> ImageTable(images)[id] in images
    ensures forall k :: 0 <= k < |images| && images[k].id.Some? ==> images[k].id.value in ImageTable(images)
  {
    if images != [] {
      var pre := images[..|images| - 1];
      ImageTableIds(pre);
      assert forall k :: 0 <= k < |pre| ==> pre[k] == images[k];
    }
  }

  /** The two comprehensions over the images: `img['id']` for every image, then `img['file_name']`. */
  function TableOf(images: seq<Image>): Result<map<int, Image>, Error>
  {
    if exists k :: 0 <= k < |images| && images[k].id.None? then Err(MissingKey("id"))
    else if exists k :: 0 <= k < |images| && images[k].fileName.None? then Err(MissingKey("file_name"))
    else Ok(ImageTable(images))
  }

  method BuildImageTable(images: seq<Image>) returns (r: Result<map<int, Image>, Error>)
    ensures r == TableOf(images)
  {
    var table: map<int, Image> := map[];
    var i := 0;
    while i < |images|
      invariant 0 <= i <= |images|
      invariant forall k :: 0 <= k < i ==> images[k].id.Some?
      invariant table == ImageTable(images[..i])
    {
      assert images[..i + 1][..i] == images[..i];
      if images[i].id.None? {
        return Err(MissingKey("id"));
      }
      table := table[images[i].id.value := images[i]];
      i := i + 1;
    }
    assert images[..i] == images;
    i := 0;
    while i < |images|
      invariant 0 <= i <= |images|
      invariant forall k :: 0 <= k < i ==> images[k].fileName.Some?
    {
      if images[i].fileName.None? {
        return Err(MissingKey("file_name"));
      }
      i := i + 1;
    }
    return Ok(table);
  }

  // ---------------------------------------------------------------------
  // Grouping by category
  // ---------------------------------------------------------------------

  predicate AllCategorized(anns: seq<Annotation>)
  {
    forall k :: 0 <= k < |anns| ==> anns[k].categoryId.Some?
  }

  function InCategory(c: int): Annotation -> bool
  {
    (a: Annotation) => a.categoryId == Some(c)
  }

  /** `category_to_annotations[c]`: the annotations of category `c`, in input order. */
  function Group(anns: seq<Annotation>, c: int): seq<Annotation>
  {
    Filter(anns, InCategory(c))
  }

  /** The category ids of the annotations, in input order. */
  function CategoryIds(anns: seq<Annotation>): seq<int>
  {
    if anns == [] then []
    else
      CategoryIds(anns[..|anns| - 1]) +
      (if anns[|anns| - 1].categoryId.Some? then [anns[|anns| - 1].categoryId.value] else [])
  }

  /** The key order of `category_to_annotations`: each category at its first annotation. */
  function CategoryOrder(anns: seq<Annotation>): seq<int>
  {
    Dedup(CategoryIds(anns))
  }

  /** The `defaultdict` after the grouping loop, as a map over the categories met. */
  function Groups(anns: seq<Annotation>): map<int, seq<Annotation>>
  {
    map c | c in CategoryOrder(anns) :: Group(anns, c)
  }

  lemma {:induction false} CategoryIdsMembers(anns: seq<Annotation>)
    ensures forall c :: c in CategoryIds(anns) <==> exists k :: 0 <= k < |anns| && anns[k].categoryId == Some(c)
  {
    if anns != [] {
      var pre := anns[..|anns| - 1];
      CategoryIdsMembers(pre);
      assert forall k :: 0 <= k < |pre| ==> pre[k] == anns[k];
    }
  }

  /** The grouping loop; it raises on the first annotation without `category_id`. */
  method GroupByCategory(anns: seq<Annotation>) returns (r: Result<(seq<int>, map<int, seq<Annotation>>), Error>)
    ensures AllCategorized(anns) ==> r == Ok((CategoryOrder(anns), Groups(anns)))
    ensures !AllCategorized(anns) ==> r == Err(MissingKey("category_id"))
  {
    var order: seq<int> := [];
    var groups: map<int, seq<Annotation>> := map[];
    var i := 0;
    while i < |anns|
      invariant 0 <= i <= |anns|
      invariant forall k :: 0 <= k < i ==> anns[k].categoryId.Some?
      invariant (order, groups) == GroupFold(anns[..i])
    {
      var ann := anns[i];
      if ann.categoryId.None? {
        return Err(MissingKey("category_id"));
      }
      var c := ann.categoryId.value;
      assert anns[..i + 1][..i] == anns[..i];
      if c !in groups {
        groups := groups[c := []];
        order := order + [c];
      }
      groups := groups[c := groups[c] + [ann]];
      i := i + 1;
    }
    assert anns[..i] == anns;
    GroupFoldIsGrouping(anns);
    return Ok((order, groups));
  }

  /** The key order and the `defaultdict` as the loop builds them, one annotation at a time. */
  function GroupFold(anns: seq<Annotation>): (seq<int>, map<int, seq<Annotation>>)
  {
    if anns == [] then ([], map[])
    else
      var (order, groups) := GroupFold(anns[..|anns| - 1]);
      var a := anns[|anns| - 1];
      if a.categoryId.None? then (order, groups)
      else
        var c := a.categoryId.value;
        var groups' := if c in groups then groups else groups[c := []];
        (if c in groups then order else order + [c], groups'[c := groups'[c] + [a]])
  }

  /** Building the groups one annotation at a time yields the key order and, per key, its group. */
  lemma {:induction false} GroupFoldIsGrouping(anns: seq<Annotation>)
    requires AllCategorized(anns)
    ensures GroupFold(anns) == (CategoryOrder(anns), Groups(anns))
  {
    if anns != [] {
      var n := |anns| - 1;
      var pre := anns[..n];
      assert AllCategorized(pre) by { assert forall k :: 0 <= k < |pre| ==> pre[k] == anns[k]; }
      GroupFoldIsGrouping(pre);
      assert anns[..n + 1] == anns;
      GroupingStep(anns, n, CategoryOrder(pre), Groups(pre));
    }
  }

  /** One iteration of the grouping loop, on the loop's own variables. */
  lemma GroupingStep(anns: seq<Annotation>, i: nat, order: seq<int>, groups: map<int, seq<Annotation>>)
    requires i < |anns| && anns[i].categoryId.Some?
    requires order == CategoryOrder(anns[..i]) && groups == Groups(anns[..i])
    ensures var c := anns[i].categoryId.value;
            var groups' := if c in groups then groups else groups[c := []];
            CategoryOrder(anns[..i + 1]) == (if c in groups then order else order + [c]) &&
            Groups(anns[..i + 1]) == groups'[c := groups'[c] + [anns[i]]]
  {
    CategoryOrderStep(anns, i);
    GroupsStep(anns, i);
  }

  /** One more annotation adds its category to the order the first time that category is met. */
  lemma CategoryOrderStep(anns: seq<Annotation>, i: nat)
    requires i < |anns| && anns[i].categoryId.Some?
    ensures var pre, c := anns[..i], anns[i].categoryId.value;
            CategoryOrder(anns[..i + 1]) == if c in CategoryOrder(pre) then CategoryOrder(pre) else CategoryOrder(pre) + [c]
  {
    var pre, next, c := anns[..i], anns[..i + 1], anns[i].categoryId.value;
    assert next[..i] == pre;
    assert CategoryIds(next) == CategoryIds(pre) + [c];
  }

  /** One more annotation extends its own category's group, which starts empty the first time. */
  lemma GroupsStep(anns: seq<Annotation>, i: nat)
    requires i < |anns| && anns[i].categoryId.Some?
    ensures var g, c := Groups(anns[..i]), anns[i].categoryId.value;
            var g' := if c in g then g else g[c := []];
            Groups(anns[..i + 1]) == g'[c := g'[c] + [anns[i]]]
  {
    var pre, next, c := anns[..i], anns[..i + 1], anns[i].categoryId.value;
    var g := Groups(pre);
    var g' := if c in g then g else g[c := []];
    var want := g'[c := g'[c] + [anns[i]]];
    GroupsKeysStep(anns, i);
    forall d | d in want ensures Groups(next)[d] == want[d] {
      GroupAppend(anns, i, d);
      if d == c && c !in g {
        GroupEmpty(pre, c);
      }
    }
    assert Groups(next) == want;
  }

  /** One more annotation adds its category to the keys. */
  lemma GroupsKeysStep(anns: seq<Annotation>, i: nat)
    requires i < |anns| && anns[i].categoryId.Some?
    ensures Groups(anns[..i + 1]).Keys == Groups(anns[..i]).Keys + {anns[i].categoryId.value}
  {
    CategoryOrderStep(anns, i);
  }

  /** Filtering one annotation further extends only that annotation's own group. */
  lemma GroupAppend(anns: seq<Annotation>, i: nat, d: int)
    requires i < |anns|
    ensures Group(anns[..i + 1], d) == Group(anns[..i], d) + (if anns[i].categoryId == Some(d) then [anns[i]] else [])
  {
    assert anns[..i + 1][..i] == anns[..i];
  }

  /** A category no annotation has has an empty group. */
  lemma GroupEmpty(anns: seq<Annotation>, c: int)
    requires c !in CategoryOrder(anns)
    ensures Group(anns, c) == []
  {
    DedupSpec(CategoryIds(anns));
    CategoryIdsMembers(anns);
    FilterNone(anns, InCategory(c));
  }

  // ---------------------------------------------------------------------
  // The cut
  // ---------------------------------------------------------------------

  /** Python's `int()` of an exact quotient: truncation toward zero. */
  function TruncDiv(a: int, d: int): int
    requires d > 0
  {
    if a >= 0 then a / d else -((-a) / d)
  }

  /** The truncated quotient is the multiple of `d` nearest `a` on the side of zero. */
  lemma TruncDivBounds(a: int, d: int)
    requires d > 0
    ensures var q := TruncDiv(a, d);
            (a >= 0 ==> 0 <= q * d <= a < q * d + d) && (a < 0 ==> q * d - d < a <= q * d <= 0)
  {
    if a >= 0 {
      DivBounds(a, d);
    } else {
      DivBounds(-a, d);
    }
  }

  lemma DivBounds(a: int, d: int)
    requires a >= 0 && d > 0
    ensures 0 <= (a / d) * d <= a < (a / d) * d + d
  {
    assert a == (a / d) * d + a % d;
  }

  lemma MulCancel(x: int, y: int, d: int)
    requires d > 0 && x * d <= y * d
    ensures x <= y
  {
    MulSign(x - y, d);
  }

  lemma MulSign(x: int, d: int)
    requires d > 0 && x * d <= 0
    ensures x <= 0
  {
  }

  /**
   * The position where `anns[:split_idx]` and `anns[split_idx:]` meet for a
   * group of `n` and `split_idx = int(n * num / den)`, after Python's slice
   * clamping: a negative index counts from the end, an index past the end
   * is the end.
   */
  function Cut(n: nat, num: int, den: int): (c: nat)
    requires den > 0
    ensures c <= n
  {
    var s := TruncDiv(n * num, den);
    if s < 0 then (if n + s < 0 then 0 else n + s)
    else if s > n then n
    else s
  }

  /** For a ratio between 0 and 1 the cut is the floor of `n * ratio`. */
  lemma CutOfFraction(n: nat, num: int, den: int)
    requires den > 0 && 0 <= num <= den
    ensures Cut(n, num, den) == n * num / den
  {
    var s := n * num;
    assert 0 <= s <= n * den by {
      assert n * (den - num) >= 0;
    }
    var q := TruncDiv(s, den);
    TruncDivBounds(s, den);
    MulCancel(q, n, den);
  }

  /** The default ratio 0.8 on a group of ten: eight go to train. */
  lemma CutTenAtEightyPercent()
    ensures Cut(10, 4, 5) == 8
  {
  }

  // ---------------------------------------------------------------------
  // Train and val
  // ---------------------------------------------------------------------

  /** The group at position `k` of the category order, after its shuffle. */
  function Shuffled(anns: seq<Annotation>, order: seq<int>, k: nat, shuffle: Shuffle): seq<Annotation>
    requires k < |order|
  {
    shuffle(k, Group(anns, order[k]))
  }

  datatype Side = Train | Val

  /** `anns[:split_idx]` for train, `anns[split_idx:]` for val. */
  function Piece(g: seq<Annotation>, cut: nat, side: Side): seq<Annotation>
    requires cut <= |g|
  {
    if side == Train then g[..cut] else g[cut..]
  }

  /** `train_coco['annotations']` or `val_coco['annotations']`: one piece of each shuffled group, group after group. */
  function Part(anns: seq<Annotation>, order: seq<int>, shuffle: Shuffle, num: int, den: int, side: Side): seq<Annotation>
    requires den > 0
  {
    if order == [] then []
    else
      var g := Shuffled(anns, order, |order| - 1, shuffle);
      Part(anns, order[..|order| - 1], shuffle, num, den, side) + Piece(g, Cut(|g|, num, den), side)
  }

  /** One more category appends its piece of its shuffled group. */
  lemma PartStep(anns: seq<Annotation>, order: seq<int>, shuffle: Shuffle, num: int, den: int, k: nat)
    requires den > 0 && k < |order|
    ensures var g := Shuffled(anns, order, k, shuffle);
            var cut := Cut(|g|, num, den);
            Part(anns, order[..k + 1], shuffle, num, den, Train) == Part(anns, order[..k], shuffle, num, den, Train) + g[..cut] &&
            Part(anns, order[..k + 1], shuffle, num, den, Val) == Part(anns, order[..k], shuffle, num, den, Val) + g[cut..]
  {
    assert order[..k + 1][..k] == order[..k];
    assert Shuffled(anns, order[..k + 1], k, shuffle) == Shuffled(anns, order, k, shuffle);
  }

  /** The per-category loop over the groups in key order. */
  method SplitGroups(order: seq<int>, groups: map<int, seq<Annotation>>, shuffle: Shuffle, num: int, den: int,
                     ghost anns: seq<Annotation>)
    returns (train: seq<Annotation>, val: seq<Annotation>)
    requires den > 0
    requires forall k :: 0 <= k < |order| ==> order[k] in groups && groups[order[k]] == Group(anns, order[k])
    ensures train == Part(anns, order, shuffle, num, den, Train)
    ensures val == Part(anns, order, shuffle, num, den, Val)
  {
    train, val := [], [];
    var k := 0;
    while k < |order|
      invariant 0 <= k <= |order|
      invariant train == Part(anns, order[..k], shuffle, num, den, Train)
      invariant val == Part(anns, order[..k], shuffle, num, den, Val)
    {
      var g := shuffle(k, groups[order[k]]);
      var splitIdx := Cut(|g|, num, den);
      PartStep(anns, order, shuffle, num, den, k);
      train := train + g[..splitIdx];
      val := val + g[splitIdx..];
      k := k + 1;
    }
    assert order[..k] == order;
  }

  // ---------------------------------------------------------------------
  // Images of each side
  // ---------------------------------------------------------------------

  predicate AllHaveImageIds(anns: seq<Annotation>)
  {
    forall k :: 0 <= k < |anns| ==> anns[k].imageId.Some?
  }

  /** The image ids of the annotations, in input order. */
  function ImageIds(anns: seq<Annotation>): seq<int>
  {
    if anns == [] then []
    else
      ImageIds(anns[..|anns| - 1]) +
      (if anns[|anns| - 1].imageId.Some? then [anns[|anns| - 1].imageId.value] else [])
  }

  lemma {:induction false} ImageIdsMembers(anns: seq<Annotation>)
    ensures forall id :: id in ImageIds(anns) <==> exists k :: 0 <= k < |anns| && anns[k].imageId == Some(id)
  {
    if anns != [] {
      var pre := anns[..|anns| - 1];
      ImageIdsMembers(pre);
      assert forall k :: 0 <= k < |pre| ==> pre[k] == anns[k];
    }
  }

  /** `{ann['image_id'] for ann in anns}`, listed once each in order of first occurrence. */
  method CollectImageIds(anns: seq<Annotation>) returns (r: Result<seq<int>, Error>)
    ensures AllHaveImageIds(anns) ==> r == Ok(Dedup(ImageIds(anns)))
    ensures !AllHaveImageIds(anns) ==> r == Err(MissingKey("image_id"))
  {
    var ids: seq<int> := [];
    var i := 0;
    while i < |anns|
      invariant 0 <= i <= |anns|
      invariant AllHaveImageIds(anns[..i])
      invariant ids == Dedup(ImageIds(anns[..i]))
    {
      assert anns[..i + 1][..i] == anns[..i];
      if anns[i].imageId.None? {
        return Err(MissingKey("image_id"));
      }
      if anns[i].imageId.value !in ids {
        ids := ids + [anns[i].imageId.value];
      }
      i := i + 1;
    }
    assert anns[..i] == anns;
    return Ok(ids);
  }

  /** `image_id_to_info[img_id]` for each id in turn; the first id missing from the table raises. */
  function ImagesFor(ids: seq<int>, table: map<int, Image>): Result<seq<Image>, Error>
  {
    if ids == [] then Ok([])
    else
      match ImagesFor(ids[..|ids| - 1], table)
      case Err(e) => Err(e)
      case Ok(images) =>
        if ids[|ids| - 1] in table then Ok(images + [table[ids[|ids| - 1]]])
        else Err(UnknownImage(ids[|ids| - 1]))
  }

  /** Lookup succeeds exactly when every id is a key, and then gives the table's records in id order. */
  lemma {:induction false} ImagesForSpec(ids: seq<int>, table: map<int, Image>)
    ensures ImagesFor(ids, table).Ok? <==> forall k :: 0 <= k < |ids| ==> ids[k] in table
    ensures ImagesFor(ids, table).Ok? ==>
              var images := ImagesFor(ids, table).value;
              |images| == |ids| && forall k :: 0 <= k < |ids| ==> images[k] == table[ids[k]]
  {
    if ids != [] {
      var pre := ids[..|ids| - 1];
      ImagesForSpec(pre, table);
      assert forall k :: 0 <= k < |pre| ==> pre[k] == ids[k];
    }
  }

  method CollectImages(ids: seq<int>, table: map<int, Image>) returns (r: Result<seq<Image>, Error>)
    ensures r == ImagesFor(ids, table)
  {
    var images: seq<Image> := [];
    var i := 0;
    while i < |ids|
      invariant 0 <= i <= |ids|
      invariant ImagesFor(ids[..i], table) == Ok(images)
    {
      assert ids[..i + 1][..i] == ids[..i];
      if ids[i] !in table {
        ImagesForStays(ids, i + 1, table);
        return Err(UnknownImage(ids[i]));
      }
      images := images + [table[ids[i]]];
      i := i + 1;
    }
    assert ids[..i] == ids;
    return Ok(images);
  }

  lemma {:induction false} ImagesForStays(ids: seq<int>, k: nat, table: map<int, Image>)
    requires k <= |ids| && ImagesFor(ids[..k], table).Err?
    ensures ImagesFor(ids, table) == ImagesFor(ids[..k], table)
    decreases |ids| - k
  {
    if k < |ids| {
      assert ids[..k + 1][..k] == ids[..k];
      ImagesForStays(ids, k + 1, table);
    } else {
      assert ids[..k] == ids;
    }
  }

  // ---------------------------------------------------------------------
  // The run
  // ---------------------------------------------------------------------

  datatype Parts = Parts(train: Dataset, val: Dataset)

  /** What a run produces, or the `KeyError` that stops it first. */
  function Split(data: Dataset, shuffle: Shuffle, num: int, den: int): Result<Parts, Error>
    requires den > 0
  {
    if data.categories.None? then Err(MissingKey("categories"))
    else
      match TableOf(data.images)
      case Err(e) => Err(e)
      case Ok(table) =>
        var anns := data.annotations;
        if !AllCategorized(anns) then Err(MissingKey("category_id"))
        else
          var order := CategoryOrder(anns);
          var train := Part(anns, order, shuffle, num, den, Train);
          var val := Part(anns, order, shuffle, num, den, Val);
          if !AllHaveImageIds(train) || !AllHaveImageIds(val) then Err(MissingKey("image_id"))
          else
            match ImagesFor(Dedup(ImageIds(train)), table)
            case Err(e) => Err(e)
            case Ok(trainImages) =>
              match ImagesFor(Dedup(ImageIds(val)), table)
              case Err(e) => Err(e)
              case Ok(valImages) =>
                Ok(Parts(Dataset(trainImages, train, data.categories), Dataset(valImages, val, data.categories)))
  }

  /**
   * `split_coco_dataset_by_category` on an already loaded file, with the
   * ratio `num / den` and the shuffles supplied by the caller.
   */
  method SplitCocoDatasetByCategory(data: Dataset, shuffle: Shuffle, num: int, den: int)
    returns (r: Result<Parts, Error>)
    requires den > 0
    ensures r == Split(data, shuffle, num, den)
  {
    if data.categories.None? {
      return Err(MissingKey("categories"));
    }
    var table := BuildImageTable(data.images);
    if table.Err? {
      return Err(table.error);
    }
    var grouped := GroupByCategory(data.annotations);
    if grouped.Err? {
      return Err(grouped.error);
    }
    var (order, groups) := grouped.value;
    var train, val := SplitGroups(order, groups, shuffle, num, den, data.annotations);
    var trainIds := CollectImageIds(train);
    if trainIds.Err? {
      return Err(trainIds.error);
    }
    var valIds := CollectImageIds(val);
    if valIds.Err? {
      return Err(valIds.error);
    }
    var trainImages := CollectImages(trainIds.value, table.value);
    if trainImages.Err? {
      return Err(trainImages.error);
    }
    var valImages := CollectImages(valIds.value, table.value);
    if valImages.Err? {
      return Err(valImages.error);
    }
    return Ok(Parts(Dataset(trainImages.value, train, data.categories), Dataset(valImages.value, val, data.categories)));
  }

  // ---------------------------------------------------------------------
  // Properties
  // ---------------------------------------------------------------------

  /** The groups of the categories in `order`, one after another. */
  function GroupsConcat(anns: seq<Annotation>, order: seq<int>): seq<Annotation>
  {
    if order == [] then [] else GroupsConcat(anns, order[..|order| - 1]) + Group(anns, order[|order| - 1])
  }

  lemma DistinctPrefix(order: seq<int>)
    requires order != [] && Distinct(order)
    ensures Distinct(order[..|order| - 1]) && order[|order| - 1] !in order[..|order| - 1]
  {
    var pre := order[..|order| - 1];
    assert forall i :: 0 <= i < |pre| ==> pre[i] == order[i];
  }

  /** Over distinct categories, the groups hold each annotation of those categories as often as the input does. */
  lemma {:induction false} GroupsConcatCount(anns: seq<Annotation>, order: seq<int>, x: Annotation)
    requires Distinct(order)
    ensures multiset(GroupsConcat(anns, order))[x] ==
              if x.categoryId.Some? && x.categoryId.value in order then multiset(anns)[x] else 0
  {
    if order != [] {
      var pre, c := order[..|order| - 1], order[|order| - 1];
      DistinctPrefix(order);
      GroupsConcatCount(anns, pre, x);
      GroupCount(anns, c, x);
      LastSplit(order);
      ConcatCountStep(GroupsConcat(anns, pre), Group(anns, c), anns, pre, c, x);
    }
  }

  lemma ConcatCountStep(left: seq<Annotation>, grp: seq<Annotation>, anns: seq<Annotation>, pre: seq<int>, c: int,
                        x: Annotation)
    requires c !in pre
    requires multiset(left)[x] == if x.categoryId.Some? && x.categoryId.value in pre then multiset(anns)[x] else 0
    requires multiset(grp)[x] == if x.categoryId == Some(c) then multiset(anns)[x] else 0
    ensures multiset(left + grp)[x] ==
              if x.categoryId.Some? && x.categoryId.value in pre + [c] then multiset(anns)[x] else 0
  {
    if x.categoryId.Some? {
      assert x.categoryId.value in pre + [c] <==> x.categoryId.value in pre || x.categoryId.value == c;
    }
  }

  /** A group holds each annotation of its category as often as the input does, and nothing else. */
  lemma GroupCount(anns: seq<Annotation>, c: int, x: Annotation)
    ensures multiset(Group(anns, c))[x] == if x.categoryId == Some(c) then multiset(anns)[x] else 0
  {
    FilterCount(anns, InCategory(c), x);
  }

  /** Each annotation lies in the group of its own category and in no other. */
  lemma GroupOfEach(anns: seq<Annotation>, k: nat)
    requires k < |anns| && anns[k].categoryId.Some?
    ensures forall c :: anns[k] in Group(anns, c) <==> c == anns[k].categoryId.value
  {
    FilterMembers(anns, InCategory(anns[k].categoryId.value));
    forall c ensures anns[k] in Group(anns, c) <==> c == anns[k].categoryId.value {
      FilterMembers(anns, InCategory(c));
    }
  }

  /** Every annotation's category is a key of the grouping. */
  lemma {:induction false} CategoryInOrder(anns: seq<Annotation>, k: nat)
    requires k < |anns| && anns[k].categoryId.Some?
    ensures anns[k].categoryId.value in CategoryOrder(anns)
    decreases |anns|
  {
    if k < |anns| - 1 {
      CategoryInOrder(anns[..|anns| - 1], k);
      DedupMember(CategoryIds(anns[..|anns| - 1]), anns[k].categoryId.value);
    }
    DedupMember(CategoryIds(anns), anns[k].categoryId.value);
  }

  /** Grouping loses and duplicates nothing: the groups in key order are a permutation of the annotations. */
  lemma GroupsPartition(anns: seq<Annotation>)
    requires AllCategorized(anns)
    ensures multiset(GroupsConcat(anns, CategoryOrder(anns))) == multiset(anns)
  {
    var order := CategoryOrder(anns);
    DedupSpec(CategoryIds(anns));
    forall x ensures multiset(GroupsConcat(anns, order))[x] == multiset(anns)[x] {
      GroupsConcatCount(anns, order, x);
      if x in anns {
        var k :| 0 <= k < |anns| && anns[k] == x;
        CategoryInOrder(anns, k);
      }
    }
  }

  /** The two parts of each shuffled group together are that group, up to order. */
  lemma {:induction false} PartsCount(anns: seq<Annotation>, order: seq<int>, shuffle: Shuffle, num: int, den: int,
                                      x: Annotation)
    requires den > 0 && IsPermutation(shuffle)
    ensures multiset(Part(anns, order, shuffle, num, den, Train))[x] + multiset(Part(anns, order, shuffle, num, den, Val))[x] ==
            multiset(GroupsConcat(anns, order))[x]
  {
    if order != [] {
      var pre := order[..|order| - 1];
      PartsCount(anns, pre, shuffle, num, den, x);
      var g := Shuffled(anns, order, |order| - 1, shuffle);
      var cut := Cut(|g|, num, den);
      var train, val := Part(anns, pre, shuffle, num, den, Train), Part(anns, pre, shuffle, num, den, Val);
      assert Part(anns, order, shuffle, num, den, Train) == train + g[..cut];
      assert Part(anns, order, shuffle, num, den, Val) == val + g[cut..];
      assert GroupsConcat(anns, order) == GroupsConcat(anns, pre) + Group(anns, order[|order| - 1]);
      assert multiset(g) == multiset(Group(anns, order[|order| - 1]));
      PiecesCount(g, cut, Group(anns, order[|order| - 1]), x);
    }
  }

  /** The two pieces of a permuted group together hold what the group holds. */
  lemma PiecesCount(g: seq<Annotation>, cut: nat, grp: seq<Annotation>, x: Annotation)
    requires cut <= |g| && multiset(g) == multiset(grp)
    ensures multiset(g[..cut])[x] + multiset(g[cut..])[x] == multiset(grp)[x]
  {
    assert g[..cut] + g[cut..] == g;
  }

  /** Across train and val nothing is lost or duplicated. */
  lemma SplitIsPermutation(anns: seq<Annotation>, shuffle: Shuffle, num: int, den: int)
    requires den > 0 && IsPermutation(shuffle) && AllCategorized(anns)
    ensures var order := CategoryOrder(anns);
            multiset(Part(anns, order, shuffle, num, den, Train) + Part(anns, order, shuffle, num, den, Val)) ==
            multiset(anns)
  {
    var order := CategoryOrder(anns);
    GroupsPartition(anns);
    forall x ensures multiset(Part(anns, order, shuffle, num, den, Train) + Part(anns, order, shuffle, num, den, Val))[x] ==
                     multiset(anns)[x] {
      PartsCount(anns, order, shuffle, num, den, x);
    }
  }

  /** A shuffled group holds only annotations of its category. */
  lemma ShuffledCategory(anns: seq<Annotation>, order: seq<int>, k: nat, shuffle: Shuffle)
    requires k < |order| && IsPermutation(shuffle)
    ensures forall i :: 0 <= i < |Shuffled(anns, order, k, shuffle)| ==>
              Shuffled(anns, order, k, shuffle)[i].categoryId == Some(order[k])
  {
    var g := Shuffled(anns, order, k, shuffle);
    var grp := Group(anns, order[k]);
    assert multiset(g) == multiset(grp);
    FilterMembers(anns, InCategory(order[k]));
    forall i | 0 <= i < |g| ensures g[i].categoryId == Some(order[k]) {
      assert g[i] in multiset(g);
      assert g[i] in grp;
    }
  }

  /** A piece of a shuffled group also holds only annotations of its category. */
  lemma PieceCategory(anns: seq<Annotation>, order: seq<int>, k: nat, shuffle: Shuffle, num: int, den: int, side: Side)
    requires k < |order| && IsPermutation(shuffle) && den > 0
    ensures var g := Shuffled(anns, order, k, shuffle);
            var piece := Piece(g, Cut(|g|, num, den), side);
            forall i :: 0 <= i < |piece| ==> piece[i].categoryId == Some(order[k])
  {
    var g := Shuffled(anns, order, k, shuffle);
    var cut := Cut(|g|, num, den);
    var piece := Piece(g, cut, side);
    ShuffledCategory(anns, order, k, shuffle);
    forall i | 0 <= i < |piece| ensures piece[i].categoryId == Some(order[k]) {
      if side == Train { assert piece[i] == g[i]; } else { assert piece[i] == g[cut + i]; }
    }
  }

  /**
   * Per category, train holds exactly the first `split_idx` annotations of
   * that category's shuffled group, and val exactly the rest.
   */
  lemma {:induction false} PartOfCategory(anns: seq<Annotation>, order: seq<int>, shuffle: Shuffle, num: int, den: int,
                                          side: Side, k: nat)
    requires den > 0 && IsPermutation(shuffle) && Distinct(order) && k < |order|
    ensures var g := Shuffled(anns, order, k, shuffle);
            Filter(Part(anns, order, shuffle, num, den, side), InCategory(order[k])) == Piece(g, Cut(|g|, num, den), side)
  {
    var n := |order| - 1;
    var pre, c := order[..n], order[k];
    DistinctPrefix(order);
    var g := Shuffled(anns, order, n, shuffle);
    var piece := Piece(g, Cut(|g|, num, den), side);
    var left := Part(anns, pre, shuffle, num, den, side);
    assert Part(anns, order, shuffle, num, den, side) == left + piece;
    FilterAppend(left, piece, InCategory(c));
    PieceCategory(anns, order, n, shuffle, num, den, side);
    if k == n {
      PartOfOtherCategory(anns, pre, shuffle, num, den, side, c);
      FilterAll(piece, InCategory(c));
      assert Filter(left, InCategory(c)) + Filter(piece, InCategory(c)) == piece;
    } else {
      assert pre[k] == c;
      assert c != order[n];
      FilterNone(piece, InCategory(c));
      PartOfCategory(anns, pre, shuffle, num, den, side, k);
      var gk := Shuffled(anns, order, k, shuffle);
      assert Shuffled(anns, pre, k, shuffle) == gk;
      assert Filter(left, InCategory(c)) == Piece(gk, Cut(|gk|, num, den), side);
      assert Filter(left, InCategory(c)) + Filter(piece, InCategory(c)) == Filter(left, InCategory(c));
    }
  }

  /** Neither part holds an annotation of a category outside the order. */
  lemma {:induction false} PartOfOtherCategory(anns: seq<Annotation>, order: seq<int>, shuffle: Shuffle, num: int, den: int,
                                               side: Side, c: int)
    requires den > 0 && IsPermutation(shuffle) && c !in order
    ensures Filter(Part(anns, order, shuffle, num, den, side), InCategory(c)) == []
  {
    if order != [] {
      var n := |order| - 1;
      var pre := order[..n];
      var g := Shuffled(anns, order, n, shuffle);
      var piece := Piece(g, Cut(|g|, num, den), side);
      assert c !in pre by { assert forall i :: 0 <= i < |pre| ==> pre[i] == order[i]; }
      PartOfOtherCategory(anns, pre, shuffle, num, den, side, c);
      FilterAppend(Part(anns, pre, shuffle, num, den, side), piece, InCategory(c));
      PieceCategory(anns, order, n, shuffle, num, den, side);
      assert c != order[n];
      FilterNone(piece, InCategory(c));
    }
  }

  /**
   * Two categories of ten annotations each, at ratio 0.8: train gets eight
   * of each category (sixteen) and val two of each (four).
   */
  lemma TwoCategoriesOfTen(anns: seq<Annotation>, shuffle: Shuffle)
    requires IsPermutation(shuffle) && AllCategorized(anns)
    requires |CategoryOrder(anns)| == 2
    requires forall k :: 0 <= k < 2 ==> |Group(anns, CategoryOrder(anns)[k])| == 10
    ensures var order := CategoryOrder(anns);
            var train, val := Part(anns, order, shuffle, 4, 5, Train), Part(anns, order, shuffle, 4, 5, Val);
            |train| == 16 && |val| == 4 &&
            forall k :: 0 <= k < 2 ==>
              |Filter(train, InCategory(order[k]))| == 8 && |Filter(val, InCategory(order[k]))| == 2
  {
    var order := CategoryOrder(anns);
    DedupSpec(CategoryIds(anns));
    forall k | 0 <= k < 2 ensures |Shuffled(anns, order, k, shuffle)| == 10 {
      assert |multiset(Shuffled(anns, order, k, shuffle))| == |multiset(Group(anns, order[k]))|;
    }
    CutTenAtEightyPercent();
    var first := order[..1];
    assert first[..0] == [];
    assert Shuffled(anns, first, 0, shuffle) == Shuffled(anns, order, 0, shuffle);
    assert |Part(anns, first, shuffle, 4, 5, Train)| == 8;
    assert |Part(anns, first, shuffle, 4, 5, Val)| == 2;
    assert |Part(anns, order, shuffle, 4, 5, Train)| == 16;
    assert |Part(anns, order, shuffle, 4, 5, Val)| == 4;
    forall k | 0 <= k < 2
      ensures |Filter(Part(anns, order, shuffle, 4, 5, Train), InCategory(order[k]))| == 8
      ensures |Filter(Part(anns, order, shuffle, 4, 5, Val), InCategory(order[k]))| == 2
    {
      PartOfCategory(anns, order, shuffle, 4, 5, Train, k);
      PartOfCategory(anns, order, shuffle, 4, 5, Val, k);
    }
  }

  /** One image record per distinct image id of the annotations, and no other record. */
  ghost predicate OnePerImageId(images: seq<Image>, anns: seq<Annotation>)
  {
    (forall i, j :: 0 <= i < j < |images| ==> images[i].id != images[j].id) &&
    (forall i :: 0 <= i < |images| ==> exists k :: 0 <= k < |anns| && anns[k].imageId == images[i].id) &&
    (forall k :: 0 <= k < |anns| ==> exists i :: 0 <= i < |images| && images[i].id == anns[k].imageId)
  }

  lemma {:induction false} ImageIdIn(anns: seq<Annotation>, k: nat)
    requires k < |anns| && anns[k].imageId.Some?
    ensures anns[k].imageId.value in ImageIds(anns)
  {
    if k < |anns| - 1 {
      ImageIdIn(anns[..|anns| - 1], k);
    }
  }

  lemma TableEntry(table: map<int, Image>, id: int)
    requires forall id :: id in table ==> table[id].id == Some(id)
    requires id in table
    ensures table[id].id == Some(id)
  {
  }

  /** The records looked up for the ids carry those ids, in order. */
  lemma ImagesCarryIds(ids: seq<int>, table: map<int, Image>, images: seq<Image>)
    requires forall id :: id in table ==> table[id].id == Some(id)
    requires ImagesFor(ids, table) == Ok(images)
    ensures |images| == |ids|
    ensures forall i :: 0 <= i < |images| ==> images[i].id == Some(ids[i])
  {
    ImagesForSpec(ids, table);
    forall i | 0 <= i < |images| ensures images[i].id == Some(ids[i]) {
      TableEntry(table, ids[i]);
      assert images[i] == table[ids[i]];
    }
  }

  lemma DistinctIds(ids: seq<int>, images: seq<Image>)
    requires Distinct(ids) && |images| == |ids|
    requires forall i :: 0 <= i < |images| ==> images[i].id == Some(ids[i])
    ensures forall i, j :: 0 <= i < j < |images| ==> images[i].id != images[j].id
  {
    forall i, j | 0 <= i < j < |images| ensures images[i].id != images[j].id {
      assert ids[i] != ids[j];
    }
  }

  /** An annotation carrying a listed image id. */
  lemma {:induction false} ImageIdSource(anns: seq<Annotation>, id: int) returns (k: nat)
    requires id in ImageIds(anns)
    ensures k < |anns| && anns[k].imageId == Some(id)
  {
    var pre := anns[..|anns| - 1];
    if id in ImageIds(pre) {
      k := ImageIdSource(pre, id);
    } else {
      k := |anns| - 1;
    }
  }

  lemma ImagesOfPart(anns: seq<Annotation>, table: map<int, Image>, images: seq<Image>)
    requires AllHaveImageIds(anns)
    requires forall id :: id in table ==> table[id].id == Some(id)
    requires ImagesFor(Dedup(ImageIds(anns)), table) == Ok(images)
    ensures OnePerImageId(images, anns)
  {
    var ids := Dedup(ImageIds(anns));
    ImagesCarryIds(ids, table, images);
    DedupSpec(ImageIds(anns));
    DistinctIds(ids, images);
    forall i | 0 <= i < |images| ensures exists k :: 0 <= k < |anns| && anns[k].imageId == images[i].id {
      DedupMember(ImageIds(anns), ids[i]);
      var k := ImageIdSource(anns, ids[i]);
    }
    forall k | 0 <= k < |anns| ensures exists i :: 0 <= i < |images| && images[i].id == anns[k].imageId {
      ImageIdIn(anns, k);
      DedupMember(ImageIds(anns), anns[k].imageId.value);
      var i := IndexOf(ids, anns[k].imageId.value);
    }
  }

  /** What a successful run is made of. */
  lemma SplitShape(data: Dataset, shuffle: Shuffle, num: int, den: int)
    requires den > 0 && Split(data, shuffle, num, den).Ok?
    ensures TableOf(data.images).Ok? && AllCategorized(data.annotations)
    ensures var p, table := Split(data, shuffle, num, den).value, TableOf(data.images).value;
            var order := CategoryOrder(data.annotations);
            p.train.annotations == Part(data.annotations, order, shuffle, num, den, Train) &&
            p.val.annotations == Part(data.annotations, order, shuffle, num, den, Val) &&
            AllHaveImageIds(p.train.annotations) && AllHaveImageIds(p.val.annotations) &&
            ImagesFor(Dedup(ImageIds(p.train.annotations)), table) == Ok(p.train.images) &&
            ImagesFor(Dedup(ImageIds(p.val.annotations)), table) == Ok(p.val.images) &&
            p.train.categories == data.categories && p.val.categories == data.categories
  {
  }

  /** The records of one side, looked up in the table, are records of the input. */
  lemma ImagesFromInput(ids: seq<int>, images: seq<Image>, all: seq<Image>)
    requires ImagesFor(ids, ImageTable(all)) == Ok(images)
    ensures forall i :: 0 <= i < |images| ==> images[i] in all
  {
    var table := ImageTable(all);
    ImagesForSpec(ids, table);
    ImageTableIds(all);
    forall i | 0 <= i < |images| ensures images[i] in all {
      TableValue(all, ids[i]);
    }
  }

  lemma TableValue(images: seq<Image>, id: int)
    requires id in ImageTable(images)
    ensures ImageTable(images)[id] in images
  {
    ImageTableIds(images);
  }

  /**
   * A run that succeeds gives each side one image record per distinct image
   * id of its annotations, each record the input's, and passes the
   * categories through unchanged.
   */
  lemma SplitImages(data: Dataset, shuffle: Shuffle, num: int, den: int)
    requires den > 0 && Split(data, shuffle, num, den).Ok?
    ensures var p := Split(data, shuffle, num, den).value;
            OnePerImageId(p.train.images, p.train.annotations) &&
            OnePerImageId(p.val.images, p.val.annotations) &&
            (forall i :: 0 <= i < |p.train.images| ==> p.train.images[i] in data.images) &&
            (forall i :: 0 <= i < |p.val.images| ==> p.val.images[i] in data.images) &&
            p.train.categories == data.categories && p.val.categories == data.categories
  {
    SplitShape(data, shuffle, num, den);
    var p := Split(data, shuffle, num, den).value;
    var table := ImageTable(data.images);
    assert TableOf(data.images).value == table;
    ImageTableIds(data.images);
    ImagesOfPart(p.train.annotations, table, p.train.images);
    ImagesOfPart(p.val.annotations, table, p.val.images);
    ImagesFromInput(Dedup(ImageIds(p.train.annotations)), p.train.images, data.images);
    ImagesFromInput(Dedup(ImageIds(p.val.annotations)), p.val.images, data.images);
  }
}
