/**
 * The manifest extractor: collects the values of one key from a parsed JSON
 * document in document order, and builds the file names and manifest lines
 * around that collection.
 */
module MakeImageList {
  import opened PosixPath

  /**
   * A parsed JSON value. An object is the dict `json.load` builds, its members
   * in insertion order; such a dict never repeats a key, and the model reads
   * the first member carrying a key.
   */
  datatype Json =
    | Null
    | Bool(b: bool)
    | Num(n: real)
    | Str(s: string)
    | Arr(items: seq<Json>)
    | Obj(members: seq<Member>)

  datatype Member = Member(key: string, value: Json)

  /** `key in d` */
  predicate HasKey(ms: seq<Member>, key: string)
  {
    exists i :: 0 <= i < |ms| && ms[i].key == key
  }

  /** `d[key]`: the value of the member carrying `key`. */
  function Lookup(ms: seq<Member>, key: string): (v: Json)
    requires HasKey(ms, key)
    ensures exists i :: 0 <= i < |ms| && ms[i].key == key && ms[i].value == v
  {
    if ms[0].key == key then ms[0].value else Lookup(ms[1..], key)
  }

  // ---------------------------------------------------------------------
  // extract_image_names, written with the branches the script has
  // ---------------------------------------------------------------------

  /** `extract_image_names(json_data, key_name)`. */
  function ExtractImageNames(j: Json, key: string): seq<Json>
    decreases j, 1
  {
    match j
    case Arr(items) => FromList(items, key)
    case Obj(ms) => FromDict(ms, key)
    case _ => []
  }

  /** The list branch: every element in order. */
  function FromList(items: seq<Json>, key: string): seq<Json>
    decreases items, 0
  {
    if items == [] then [] else FromListItem(items[0], key) + FromList(items[1..], key)
  }

  /**
   * One list element: a dict holding the key gives its value, any other dict
   * or list is searched recursively, a scalar gives nothing.
   */
  function FromListItem(item: Json, key: string): seq<Json>
    decreases item, 2
  {
    match item
    case Obj(ms) => if HasKey(ms, key) then [Lookup(ms, key)] else ExtractImageNames(item, key)
    case Arr(_) => ExtractImageNames(item, key)
    case _ => []
  }

  /** The dict branch: the key's value if present, otherwise a search of all values. */
  function FromDict(ms: seq<Member>, key: string): seq<Json>
    decreases ms, 1
  {
    if HasKey(ms, key) then [Lookup(ms, key)] else FromValues(ms, key)
  }

  /** The values of a dict without the key, in order; only dicts and lists are searched. */
  function FromValues(ms: seq<Member>, key: string): seq<Json>
    decreases ms, 0
  {
    if ms == [] then []
    else
      (if ms[0].value.Obj? || ms[0].value.Arr? then ExtractImageNames(ms[0].value, key) else [])
      + FromValues(ms[1..], key)
  }

  // ---------------------------------------------------------------------
  // An independent reference: plain structural recursion
  // ---------------------------------------------------------------------

  /**
   * The collection stated once: a dict with the key yields that value and
   * stops; any other dict or list yields what its children yield, in order.
   */
  function Collect(j: Json, key: string): seq<Json>
    decreases j, 1
  {
    match j
    case Arr(items) => CollectAll(items, key)
    case Obj(ms) => if HasKey(ms, key) then [Lookup(ms, key)] else CollectValues(ms, key)
    case _ => []
  }

  function CollectAll(items: seq<Json>, key: string): seq<Json>
    decreases items, 0
  {
    if items == [] then [] else Collect(items[0], key) + CollectAll(items[1..], key)
  }

  function CollectValues(ms: seq<Member>, key: string): seq<Json>
    decreases ms, 0
  {
    if ms == [] then [] else Collect(ms[0].value, key) + CollectValues(ms[1..], key)
  }

  /** The number of dict nodes in a document. */
  function Dicts(j: Json): nat
    decreases j, 1
  {
    match j
    case Arr(items) => DictsAll(items)
    case Obj(ms) => 1 + DictsValues(ms)
    case _ => 0
  }

  function DictsAll(items: seq<Json>): nat
    decreases items, 0
  {
    if items == [] then 0 else Dicts(items[0]) + DictsAll(items[1..])
  }

  function DictsValues(ms: seq<Member>): nat
    decreases ms, 0
  {
    if ms == [] then 0 else Dicts(ms[0].value) + DictsValues(ms[1..])
  }

  /** Every value stored under `key` anywhere in the document, in document order. */
  function KeyValues(j: Json, key: string): seq<Json>
    decreases j, 1
  {
    match j
    case Arr(items) => KeyValuesAll(items, key)
    case Obj(ms) => (if HasKey(ms, key) then [Lookup(ms, key)] else []) + KeyValuesValues(ms, key)
    case _ => []
  }

  function KeyValuesAll(items: seq<Json>, key: string): seq<Json>
    decreases items, 0
  {
    if items == [] then [] else KeyValues(items[0], key) + KeyValuesAll(items[1..], key)
  }

  function KeyValuesValues(ms: seq<Member>, key: string): seq<Json>
    decreases ms, 0
  {
    if ms == [] then [] else KeyValues(ms[0].value, key) + KeyValuesValues(ms[1..], key)
  }

  // ---------------------------------------------------------------------
  // Properties of the extraction
  // ---------------------------------------------------------------------

  /** The script's special cases inside lists change nothing: it is the plain recursion. */
  lemma {:induction false} ExtractIsCollect(j: Json, key: string)
    ensures ExtractImageNames(j, key) == Collect(j, key)
    decreases j, 1
  {
    match j
    case Arr(items) => FromListIsCollectAll(items, key);
    case Obj(ms) => if !HasKey(ms, key) { FromValuesIsCollectValues(ms, key); }
    case _ =>
  }

  lemma {:induction false} FromListIsCollectAll(items: seq<Json>, key: string)
    ensures FromList(items, key) == CollectAll(items, key)
    decreases items, 0
  {
    if items != [] {
      ExtractIsCollect(items[0], key);
      FromListIsCollectAll(items[1..], key);
    }
  }

  lemma {:induction false} FromValuesIsCollectValues(ms: seq<Member>, key: string)
    ensures FromValues(ms, key) == CollectValues(ms, key)
    decreases ms, 0
  {
    if ms != [] {
      ExtractIsCollect(ms[0].value, key);
      FromValuesIsCollectValues(ms[1..], key);
    }
  }

  /** A dict holding the key yields exactly its value and is not searched further. */
  lemma DictWithKey(ms: seq<Member>, key: string)
    requires HasKey(ms, key)
    ensures ExtractImageNames(Obj(ms), key) == [Lookup(ms, key)]
  {
  }

  /** Without the key, a dict's results are those of its values, in value order. */
  lemma {:induction false} FromValuesAppend(ms1: seq<Member>, ms2: seq<Member>, key: string)
    ensures FromValues(ms1 + ms2, key) == FromValues(ms1, key) + FromValues(ms2, key)
    decreases ms1
  {
    if ms1 == [] {
      assert ms1 + ms2 == ms2;
    } else {
      assert (ms1 + ms2)[1..] == ms1[1..] + ms2;
      FromValuesAppend(ms1[1..], ms2, key);
    }
  }

  /**
   * A dict without the key yields the concatenation, in value order, of what
   * its parts yield.
   */
  lemma DictWithoutKey(ms1: seq<Member>, ms2: seq<Member>, key: string)
    requires !HasKey(ms1 + ms2, key)
    ensures !HasKey(ms1, key) && !HasKey(ms2, key)
    ensures ExtractImageNames(Obj(ms1 + ms2), key)
         == ExtractImageNames(Obj(ms1), key) + ExtractImageNames(Obj(ms2), key)
  {
    forall i | 0 <= i < |ms1| ensures ms1[i].key != key {
      assert (ms1 + ms2)[i] == ms1[i];
    }
    forall i | 0 <= i < |ms2| ensures ms2[i].key != key {
      assert (ms1 + ms2)[|ms1| + i] == ms2[i];
    }
    FromValuesAppend(ms1, ms2, key);
  }

  /** A one-element list around a dict yields what the dict alone yields. */
  lemma ListOfOneDict(ms: seq<Member>, key: string)
    ensures ExtractImageNames(Arr([Obj(ms)]), key) == ExtractImageNames(Obj(ms), key)
  {
    assert FromList([Obj(ms)], key) == FromListItem(Obj(ms), key) + FromList([], key);
  }

  /** A scalar document yields nothing. */
  lemma ScalarYieldsNothing(j: Json, key: string)
    requires !j.Arr? && !j.Obj?
    ensures ExtractImageNames(j, key) == []
  {
  }

  /** At most one name per dict node. */
  lemma {:induction false} AtMostOnePerDict(j: Json, key: string)
    ensures |Collect(j, key)| <= Dicts(j)
    decreases j, 1
  {
    match j
    case Arr(items) => AtMostOnePerDictAll(items, key);
    case Obj(ms) => if !HasKey(ms, key) { AtMostOnePerDictValues(ms, key); }
    case _ =>
  }

  lemma {:induction false} AtMostOnePerDictAll(items: seq<Json>, key: string)
    ensures |CollectAll(items, key)| <= DictsAll(items)
    decreases items, 0
  {
    if items != [] {
      AtMostOnePerDict(items[0], key);
      AtMostOnePerDictAll(items[1..], key);
    }
  }

  lemma {:induction false} AtMostOnePerDictValues(ms: seq<Member>, key: string)
    ensures |CollectValues(ms, key)| <= DictsValues(ms)
    decreases ms, 0
  {
    if ms != [] {
      AtMostOnePerDict(ms[0].value, key);
      AtMostOnePerDictValues(ms[1..], key);
    }
  }

  /** The result is never longer than the number of dicts in the document. */
  lemma ExtractBound(j: Json, key: string)
    ensures |ExtractImageNames(j, key)| <= Dicts(j)
  {
    ExtractIsCollect(j, key);
    AtMostOnePerDict(j, key);
  }

  /** Every extracted value is a value stored under the key somewhere in the document. */
  lemma {:induction false} CollectFromKeyValues(j: Json, key: string)
    ensures forall v :: v in Collect(j, key) ==> v in KeyValues(j, key)
    decreases j, 1
  {
    match j
    case Arr(items) => CollectFromKeyValuesAll(items, key);
    case Obj(ms) => if !HasKey(ms, key) { CollectFromKeyValuesValues(ms, key); }
    case _ =>
  }

  lemma {:induction false} CollectFromKeyValuesAll(items: seq<Json>, key: string)
    ensures forall v :: v in CollectAll(items, key) ==> v in KeyValuesAll(items, key)
    decreases items, 0
  {
    if items != [] {
      CollectFromKeyValues(items[0], key);
      CollectFromKeyValuesAll(items[1..], key);
    }
  }

  lemma {:induction false} CollectFromKeyValuesValues(ms: seq<Member>, key: string)
    ensures forall v :: v in CollectValues(ms, key) ==> v in KeyValuesValues(ms, key)
    decreases ms, 0
  {
    if ms != [] {
      CollectFromKeyValues(ms[0].value, key);
      CollectFromKeyValuesValues(ms[1..], key);
    }
  }

  /** Extraction returns only values found under the key; a document without the key yields nothing. */
  lemma ExtractSound(j: Json, key: string)
    ensures forall v :: v in ExtractImageNames(j, key) ==> v in KeyValues(j, key)
    ensures KeyValues(j, key) == [] ==> ExtractImageNames(j, key) == []
  {
    ExtractIsCollect(j, key);
    CollectFromKeyValues(j, key);
    if ExtractImageNames(j, key) != [] {
      assert ExtractImageNames(j, key)[0] in KeyValues(j, key);
    }
  }

  // ---------------------------------------------------------------------
  // main: file names and manifest lines
  // ---------------------------------------------------------------------

  /** `'medtool_' + json_tag + '_anns.json'` */
  function InputFileName(jsonTag: string): (name: string)
    ensures |name| == |jsonTag| + 18
    ensures name[..8] == "medtool_" && name[8..|name| - 10] == jsonTag
    ensures name[|name| - 10..] == "_anns.json"
  {
    "medtool_" + jsonTag + "_anns.json"
  }

  /** `output_tag + '_medvision.txt'` */
  function ManifestFileName(outputTag: string): (name: string)
    ensures |name| == |outputTag| + 14
    ensures name[..|outputTag|] == outputTag && name[|outputTag|..] == "_medvision.txt"
  {
    outputTag + "_medvision.txt"
  }

  /** The line written for one name: `os.path.join(output_dir, 'images', output_tag, name)` and a newline. */
  function ManifestLine(outputDir: string, outputTag: string, name: string): string
  {
    Join(Join(Join(outputDir, "images"), outputTag), name) + "\n"
  }

  /** With ordinary relative components the line is the '/'-separated path. */
  lemma ManifestLineShape(outputDir: string, outputTag: string, name: string)
    requires |outputDir| > 0 && outputDir[|outputDir| - 1] != '/'
    requires |outputTag| > 0 && outputTag[0] != '/' && outputTag[|outputTag| - 1] != '/'
    requires |name| > 0 && name[0] != '/'
    ensures ManifestLine(outputDir, outputTag, name) == outputDir + "/images/" + outputTag + "/" + name + "\n"
  {
    var images := Join(outputDir, "images");
    assert images == outputDir + "/" + "images";
    assert images[|images| - 1] == 's';
    var tagged := Join(images, outputTag);
    assert tagged == images + "/" + outputTag;
    assert tagged[|tagged| - 1] == outputTag[|outputTag| - 1];
    assert Join(tagged, name) == tagged + "/" + name;
    assert outputDir + "/images/" + outputTag + "/" + name == tagged + "/" + name;
  }

  /** The manifest file name determines the tag it was built from. */
  lemma ManifestFileNameInjective(t1: string, t2: string)
    requires ManifestFileName(t1) == ManifestFileName(t2)
    ensures t1 == t2
  {
    assert |t1| == |t2|;
    assert t1 == ManifestFileName(t1)[..|t1|];
  }

  /** The lines for a run of string names, in order. */
  function Lines(outputDir: string, outputTag: string, names: seq<Json>): seq<string>
    requires forall k :: 0 <= k < |names| ==> names[k].Str?
  {
    if names == [] then []
    else Lines(outputDir, outputTag, names[..|names| - 1]) + [ManifestLine(outputDir, outputTag, names[|names| - 1].s)]
  }

  /** Line `k` is the path of name `k`. */
  lemma {:induction false} LinesElements(outputDir: string, outputTag: string, names: seq<Json>)
    requires forall k :: 0 <= k < |names| ==> names[k].Str?
    ensures |Lines(outputDir, outputTag, names)| == |names|
    ensures forall k :: 0 <= k < |names| ==>
              Lines(outputDir, outputTag, names)[k] == ManifestLine(outputDir, outputTag, names[k].s)
  {
    if names != [] {
      var pre := names[..|names| - 1];
      LinesElements(outputDir, outputTag, pre);
      var lines := Lines(outputDir, outputTag, names);
      assert lines == Lines(outputDir, outputTag, pre) + [ManifestLine(outputDir, outputTag, names[|names| - 1].s)];
      forall k | 0 <= k < |names| ensures lines[k] == ManifestLine(outputDir, outputTag, names[k].s) {
        if k < |pre| {
          assert lines[k] == Lines(outputDir, outputTag, pre)[k] && pre[k] == names[k];
        }
      }
    }
  }

  /**
   * The write loop of `main`: one line per extracted name, in order. A name
   * that is not a string makes `os.path.join` raise; the lines before it are
   * already written, and `main` reports the error.
   */
  method WriteManifest(outputDir: string, outputTag: string, names: seq<Json>)
    returns (written: seq<string>, ok: bool)
    ensures ok <==> forall i :: 0 <= i < |names| ==> names[i].Str?
    ensures |written| <= |names| && forall i :: 0 <= i < |written| ==> names[i].Str?
    ensures written == Lines(outputDir, outputTag, names[..|written|])
    ensures ok ==> |written| == |names|
    ensures !ok ==> |written| < |names| && !names[|written|].Str?
  {
    written := [];
    var i := 0;
    while i < |names|
      invariant 0 <= i <= |names| && |written| == i
      invariant forall k :: 0 <= k < i ==> names[k].Str?
      invariant written == Lines(outputDir, outputTag, names[..i])
    {
      if !names[i].Str? {
        return written, false;
      }
      assert names[..i + 1][..i] == names[..i];
      written := written + [ManifestLine(outputDir, outputTag, names[i].s)];
      i := i + 1;
    }
    ok := true;
    assert names[..i] == names;
  }
}
