/**
 * `merge_annotation_files`: appends to a target dataset the source images
 * whose `(height, width, file_name)` fingerprint the target lacks, and the
 * source annotations that belong to them.
 */
module MergeDataset {
  import opened Wrappers
  import opened Coco
  import opened Seqs

  /** `(img.get('height'), img.get('width'), img.get('file_name'))`; a missing field is `None`. */
  type Fingerprint = (Option<int>, Option<int>, Option<string>)

  function FingerprintOf(img: Image): (f: Fingerprint)
    ensures f.0 == img.height && f.1 == img.width && f.2 == img.fileName
  {
    (img.height, img.width, img.fileName)
  }

  /** The fingerprints of a list of images. */
  function Fingerprints(images: seq<Image>): set<Fingerprint>
  {
    if images == [] then {} else Fingerprints(images[..|images| - 1]) + {FingerprintOf(images[|images| - 1])}
  }

  /** A fingerprint is in the set exactly when some image has it. */
  lemma {:induction false} FingerprintsMembers(images: seq<Image>)
    ensures forall f :: f in Fingerprints(images) <==> exists img :: img in images && FingerprintOf(img) == f
  {
    if images != [] {
      var pre := images[..|images| - 1];
      FingerprintsMembers(pre);
      LastSplit(images);
    }
  }

  /** Whether a source image is new to the target. */
  function IsNew(fps: set<Fingerprint>): Image -> bool
  {
    (img: Image) => FingerprintOf(img) !in fps
  }

  /** The source images whose fingerprint the target lacks, in source order. */
  function NewImages(source: seq<Image>, target: seq<Image>): seq<Image>
  {
    Filter(source, IsNew(Fingerprints(target)))
  }

  /** The ids carried by a list of images; images without an `id` contribute none. */
  function IdsOf(images: seq<Image>): set<int>
  {
    if images == [] then {}
    else IdsOf(images[..|images| - 1]) + (if images[|images| - 1].id.Some? then {images[|images| - 1].id.value} else {})
  }

  lemma {:induction false} IdsOfMembers(images: seq<Image>)
    ensures forall id :: id in IdsOf(images) <==> exists k :: 0 <= k < |images| && images[k].id == Some(id)
  {
    if images != [] {
      var pre := images[..|images| - 1];
      IdsOfMembers(pre);
      assert forall k :: 0 <= k < |pre| ==> pre[k] == images[k];
    }
  }

  lemma {:induction false} IdsOfHas(images: seq<Image>, k: nat)
    requires k < |images| && images[k].id.Some?
    ensures images[k].id.value in IdsOf(images)
  {
    if k < |images| - 1 {
      IdsOfHas(images[..|images| - 1], k);
    }
  }

  lemma {:induction false} IdsOfNone(images: seq<Image>)
    requires forall k :: 0 <= k < |images| ==> images[k].id.None?
    ensures IdsOf(images) == {}
  {
    if images != [] {
      IdsOfNone(images[..|images| - 1]);
    }
  }

  /** Whether a source annotation belongs to a new image. */
  function OfImages(ids: set<int>): Annotation -> bool
  {
    (a: Annotation) => a.imageId.Some? && a.imageId.value in ids
  }

  /**
   * The annotations to add: those of the new images' ids when there are
   * any, otherwise as many leading source annotations as new images.
   */
  function NewAnnotations(annotations: seq<Annotation>, newImages: seq<Image>): seq<Annotation>
  {
    var ids := IdsOf(newImages);
    if ids != {} then Filter(annotations, OfImages(ids))
    else annotations[..if |newImages| < |annotations| then |newImages| else |annotations|]
  }

  /** The statistics dictionary the function returns. */
  datatype Stats = Stats(newImagesAdded: nat, newAnnotationsAdded: nat, totalImages: nat, totalAnnotations: nat)

  datatype Merged = Merged(data: Dataset, stats: Stats)

  /** The merged dataset and its statistics. */
  function Merge(source: Dataset, target: Dataset): Merged
  {
    var images := NewImages(source.images, target.images);
    var anns := NewAnnotations(source.annotations, images);
    var data := target.(images := target.images + images, annotations := target.annotations + anns);
    Merged(data, Stats(|images|, |anns|, |data.images|, |data.annotations|))
  }

  /** `merge_annotation_files` on already loaded files. */
  method MergeAnnotationFiles(source: Dataset, target: Dataset) returns (merged: Dataset, stats: Stats)
    ensures Merged(merged, stats) == Merge(source, target)
  {
    var targetFingerprints: set<Fingerprint> := {};
    var i := 0;
    while i < |target.images|
      invariant 0 <= i <= |target.images|
      invariant targetFingerprints == Fingerprints(target.images[..i])
    {
      assert target.images[..i + 1][..i] == target.images[..i];
      targetFingerprints := targetFingerprints + {FingerprintOf(target.images[i])};
      i := i + 1;
    }
    assert target.images[..i] == target.images;

    var newImages: seq<Image> := [];
    var newImageIds: set<int> := {};
    i := 0;
    while i < |source.images|
      invariant 0 <= i <= |source.images|
      invariant newImages == Filter(source.images[..i], IsNew(targetFingerprints))
      invariant newImageIds == IdsOf(newImages)
    {
      var img := source.images[i];
      assert source.images[..i + 1][..i] == source.images[..i];
      if FingerprintOf(img) !in targetFingerprints {
        if img.id.Some? {
          newImageIds := newImageIds + {img.id.value};
        }
        assert (newImages + [img])[..|newImages|] == newImages;
        newImages := newImages + [img];
      }
      i := i + 1;
    }
    assert source.images[..i] == source.images;

    var newAnnotations: seq<Annotation> := [];
    if newImageIds != {} {
      i := 0;
      while i < |source.annotations|
        invariant 0 <= i <= |source.annotations|
        invariant newAnnotations == Filter(source.annotations[..i], OfImages(newImageIds))
      {
        var anno := source.annotations[i];
        assert source.annotations[..i + 1][..i] == source.annotations[..i];
        if anno.imageId.Some? && anno.imageId.value in newImageIds {
          newAnnotations := newAnnotations + [anno];
        }
        i := i + 1;
      }
      assert source.annotations[..i] == source.annotations;
    } else {
      var n := if |newImages| < |source.annotations| then |newImages| else |source.annotations|;
      newAnnotations := source.annotations[..n];
    }

    merged := target.(images := target.images + newImages, annotations := target.annotations + newAnnotations);
    stats := Stats(|newImages|, |newAnnotations|, |merged.images|, |merged.annotations|);
  }

  // ---------------------------------------------------------------------
  // Properties
  // ---------------------------------------------------------------------

  /**
   * The new images are the source images whose fingerprint no target image
   * has; a source image occurring twice is added twice.
   */
  lemma NewImagesExactly(source: seq<Image>, target: seq<Image>)
    ensures forall img :: img in NewImages(source, target) <==>
              img in source && forall t :: t in target ==> FingerprintOf(t) != FingerprintOf(img)
    ensures forall img :: multiset(NewImages(source, target))[img] ==
              if FingerprintOf(img) in Fingerprints(target) then 0 else multiset(source)[img]
  {
    FingerprintsMembers(target);
    FilterMembers(source, IsNew(Fingerprints(target)));
    forall img ensures multiset(NewImages(source, target))[img] ==
             if FingerprintOf(img) in Fingerprints(target) then 0 else multiset(source)[img] {
      FilterCount(source, IsNew(Fingerprints(target)), img);
    }
  }

  /** Selection keeps source order: a longer source list extends the selected list. */
  lemma NewImagesInOrder(a: seq<Image>, b: seq<Image>, target: seq<Image>)
    ensures NewImages(a + b, target) == NewImages(a, target) + NewImages(b, target)
  {
    FilterAppend(a, b, IsNew(Fingerprints(target)));
  }

  /** With at least one id among the new images, the added annotations are those filtered by the ids. */
  lemma AnnotationsById(annotations: seq<Annotation>, newImages: seq<Image>)
    requires exists k :: 0 <= k < |newImages| && newImages[k].id.Some?
    ensures NewAnnotations(annotations, newImages) == Filter(annotations, OfImages(IdsOf(newImages)))
  {
    var k :| 0 <= k < |newImages| && newImages[k].id.Some?;
    IdsOfHas(newImages, k);
  }

  /** An annotation is added exactly when it names the id of a new image; each is added as often as it occurs. */
  lemma AnnotationsByIdExactly(annotations: seq<Annotation>, newImages: seq<Image>)
    requires exists k :: 0 <= k < |newImages| && newImages[k].id.Some?
    ensures forall a :: a in NewAnnotations(annotations, newImages) <==>
              (a in annotations && a.imageId.Some? &&
               exists k :: 0 <= k < |newImages| && newImages[k].id == a.imageId)
    ensures forall a :: multiset(NewAnnotations(annotations, newImages))[a] ==
              if a.imageId.Some? && a.imageId.value in IdsOf(newImages) then multiset(annotations)[a] else 0
  {
    AnnotationsById(annotations, newImages);
    var keep := OfImages(IdsOf(newImages));
    FilterMembers(annotations, keep);
    IdsOfMembers(newImages);
    forall a ensures multiset(Filter(annotations, keep))[a] == if keep(a) then multiset(annotations)[a] else 0 {
      FilterCount(annotations, keep, a);
    }
  }

  /** Without any id among the new images, the leading source annotations are added, one per new image at most. */
  lemma AnnotationsByPosition(annotations: seq<Annotation>, newImages: seq<Image>)
    requires forall k :: 0 <= k < |newImages| ==> newImages[k].id.None?
    ensures var n := if |newImages| < |annotations| then |newImages| else |annotations|;
            NewAnnotations(annotations, newImages) == annotations[..n]
  {
    IdsOfNone(newImages);
  }

  /**
   * Only appends happen: the target's lists are unchanged prefixes, the
   * categories are the target's, and the totals add up.
   */
  lemma MergeAppends(source: Dataset, target: Dataset)
    ensures var m := Merge(source, target);
            m.data.images[..|target.images|] == target.images &&
            m.data.images[|target.images|..] == NewImages(source.images, target.images) &&
            m.data.annotations[..|target.annotations|] == target.annotations &&
            m.data.annotations[|target.annotations|..] ==
              NewAnnotations(source.annotations, NewImages(source.images, target.images)) &&
            m.data.categories == target.categories &&
            m.stats.totalImages == |target.images| + m.stats.newImagesAdded &&
            m.stats.totalAnnotations == |target.annotations| + m.stats.newAnnotationsAdded &&
            m.stats.newAnnotationsAdded <= |source.annotations| &&
            m.stats.newImagesAdded <= |source.images|
  {
    var images := NewImages(source.images, target.images);
    var anns := NewAnnotations(source.annotations, images);
    var m := Merge(source, target);
    assert m.data.images == target.images + images;
    assert m.data.annotations == target.annotations + anns;
    FilterLength(source.images, IsNew(Fingerprints(target.images)));
    FilterLength(source.annotations, OfImages(IdsOf(images)));
  }

  /**
   * Target images A and B, source images B' and C, where B' has B's
   * fingerprint under an id of its own: the merge adds C and only C's
   * annotations.
   */
  lemma DuplicateImageScenario(a: Image, b: Image, b': Image, c: Image, annA: Annotation, annB: Annotation, annC: Annotation)
    requires FingerprintOf(b') == FingerprintOf(b)
    requires FingerprintOf(c) != FingerprintOf(a) && FingerprintOf(c) != FingerprintOf(b)
    requires c.id.Some? && annC.imageId == c.id && annB.imageId.Some? && annB.imageId != c.id
    ensures Merge(Dataset([b', c], [annB, annC], None), Dataset([a, b], [annA], None)) ==
              Merged(Dataset([a, b, c], [annA, annC], None), Stats(1, 1, 3, 2))
  {
    OnlyCIsNew(a, b, b', c);
    OnlyAnnCIsNew(c, annB, annC);
    assert [a, b] + [c] == [a, b, c];
    assert [annA] + [annC] == [annA, annC];
  }

  lemma OnlyCIsNew(a: Image, b: Image, b': Image, c: Image)
    requires FingerprintOf(b') == FingerprintOf(b)
    requires FingerprintOf(c) != FingerprintOf(a) && FingerprintOf(c) != FingerprintOf(b)
    ensures NewImages([b', c], [a, b]) == [c]
  {
    assert [a, b][..1] == [a] && [a][..0] == [];
    assert Fingerprints([a]) == {FingerprintOf(a)};
    assert Fingerprints([a, b]) == {FingerprintOf(a), FingerprintOf(b)};
    var keep := IsNew(Fingerprints([a, b]));
    assert [b', c][..1] == [b'] && [b'][..0] == [];
    assert Filter([b'], keep) == [];
    assert Filter([b', c], keep) == [c];
  }

  lemma OnlyAnnCIsNew(c: Image, annB: Annotation, annC: Annotation)
    requires c.id.Some? && annC.imageId == c.id && annB.imageId.Some? && annB.imageId != c.id
    ensures NewAnnotations([annB, annC], [c]) == [annC]
  {
    assert [c][..0] == [];
    assert IdsOf([c]) == {c.id.value};
    assert [annB, annC][..1] == [annB] && [annB][..0] == [];
    var of := OfImages({c.id.value});
    assert Filter([annB], of) == [];
    assert Filter([annB, annC], of) == [annC];
  }
}
