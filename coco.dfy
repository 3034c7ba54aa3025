/**
 * The COCO-style records the four scripts read and write, as they stand after
 * `json.load`: a key the file may leave out is an `Option`, and the shape of a
 * segmentation is resolved once into a tagged variant.
 */
module Coco {
  import opened Wrappers

  /** The `counts` entry of an RLE mask: a list of run lengths, or the compressed string form. */
  datatype Counts = Uncompressed(runs: seq<int>) | Compressed(text: string)

  /** A run-length encoded mask object: the `counts` and `size` entries of the dict. */
  datatype Rle = Rle(counts: Counts, size: seq<int>)

  /** The segmentation shapes the converter distinguishes. */
  datatype Segmentation =
    | RleMask(rle: Rle)                // a dict that has a `counts` key
    | Flat(coords: seq<real>)          // a list whose first element is a number (or an empty list)
    | Nested(polygons: seq<seq<real>>) // a list whose first element is a list
    | Scalar                           // a number, a boolean or null: `'counts' in` it raises TypeError
    | Other                            // a dict without `counts`, or a string without "counts" in it

  /** An entry of the `images` list. */
  datatype Image = Image(id: Option<int>, fileName: Option<string>, width: Option<int>, height: Option<int>)

  /** An entry of the `annotations` list; a `null` segmentation is `Some(Scalar)`. */
  datatype Annotation = Annotation(
    id: Option<int>,
    imageId: Option<int>,
    categoryId: Option<int>,
    segmentation: Option<Segmentation>)

  /** An entry of the `categories` list. */
  datatype Category = Category(id: Option<int>, name: Option<string>)

  /** A whole annotation file; `categories` is `None` when the file has no such key. */
  datatype Dataset = Dataset(images: seq<Image>, annotations: seq<Annotation>, categories: Option<seq<Category>>)
}
