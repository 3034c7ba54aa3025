/**
 * The three `os.path` functions the scripts use, with POSIX semantics and '/'
 * as the only separator: `join` of two components, `basename` and `splitext`.
 */
module PosixPath {

  /** `s.rfind(c)`: the index of the last `c` in `s`, or -1 when there is none. */
  function RFind(s: string, c: char): (r: int)
    ensures -1 <= r < |s|
    ensures 0 <= r ==> s[r] == c
    ensures forall i :: r < i < |s| ==> s[i] != c
  {
    if |s| == 0 then -1
    else if s[|s| - 1] == c then |s| - 1
    else RFind(s[..|s| - 1], c)
  }

  /** Any index with the two defining properties is the one `RFind` returns. */
  lemma RFindIs(s: string, c: char, k: int)
    requires k == -1 || (0 <= k < |s| && s[k] == c)
    requires forall i :: k < i < |s| ==> s[i] != c
    ensures RFind(s, c) == k
  {
  }

  /** Nothing after index `k` equals `c`. */
  lemma NoneAfter(s: string, c: char, k: int)
    requires -1 <= k < |s|
    requires forall i :: k < i < |s| ==> s[i] != c
    ensures c !in s[k + 1..]
  {
    var t := s[k + 1..];
    assert forall j :: 0 <= j < |t| ==> t[j] == s[k + 1 + j];
  }

  /** `os.path.join(a, b)`: an absolute `b` replaces `a`; otherwise one '/' separates them. */
  function Join(a: string, b: string): string
  {
    if |b| > 0 && b[0] == '/' then b
    else if a == [] || a[|a| - 1] == '/' then a + b
    else a + "/" + b
  }

  /**
   * The joined path ends with `b`. An absolute `b` is the whole result; a
   * relative one follows `a`, with one '/' added exactly when `a` is
   * non-empty and does not already end in '/'.
   */
  lemma JoinParts(a: string, b: string)
    ensures var j := Join(a, b);
            |b| <= |j| && j[|j| - |b|..] == b
    ensures |b| > 0 && b[0] == '/' ==> Join(a, b) == b
    ensures !(|b| > 0 && b[0] == '/') ==>
              var j, sep := Join(a, b), if a != [] && a[|a| - 1] != '/' then 1 else 0;
              |j| == |a| + sep + |b| && j[..|a|] == a && (sep == 1 ==> j[|a|] == '/')
  {
  }

  /** `os.path.basename(p)`: the part after the last '/'. */
  function Basename(p: string): (b: string)
    ensures '/' !in b
    ensures |b| <= |p| && p[|p| - |b|..] == b
    ensures |b| == |p| || p[|p| - |b| - 1] == '/'
  {
    var sep := RFind(p, '/');
    NoneAfter(p, '/', sep);
    p[sep + 1..]
  }

  /**
   * The last dot (at `dot`) comes after the last slash (at `sep`) and some
   * character between them is not a dot, so the dot does not merely begin
   * a hidden file's name.
   */
  predicate DotAfterName(p: string, sep: int, dot: int)
    requires -1 <= sep && dot < |p|
  {
    sep < dot && exists i :: sep < i < dot && p[i] != '.'
  }

  /**
   * `os.path.splitext(p)`: splits before the last '.' of the last component,
   * unless every character of that component before the dot is itself a dot
   * (so ".bashrc" and ".." have no extension).
   */
  function Splitext(p: string): (r: (string, string))
    ensures r.0 + r.1 == p
    ensures r.1 == [] || (r.1[0] == '.' && '/' !in r.1 && '.' !in r.1[1..])
    ensures r.1 != [] <==> DotAfterName(p, RFind(p, '/'), RFind(p, '.'))
  {
    var sep := RFind(p, '/');
    var dot := RFind(p, '.');
    if DotAfterName(p, sep, dot) then
      NoneAfter(p, '.', dot);
      NoneAfter(p, '/', dot - 1);
      assert p[dot..][1..] == p[dot + 1..];
      (p[..dot], p[dot..])
    else
      (p, [])
  }

  /** Joining a plain file name onto a directory keeps it as the basename. */
  lemma BasenameOfJoin(dir: string, name: string)
    requires '/' !in name
    ensures Basename(Join(dir, name)) == name
  {
    var j := Join(dir, name);
    if dir == [] {
      assert j == name;
      RFindIs(j, '/', -1);
    } else {
      var head := if dir[|dir| - 1] == '/' then dir else dir + "/";
      assert j == head + name;
      var k := |head| - 1;
      assert j[k] == head[k] == '/';
      forall i | k < i < |j| ensures j[i] != '/' {
        assert j[i] == name[i - k - 1];
      }
      RFindIs(j, '/', k);
      assert j[k + 1..] == name;
    }
  }

  /**
   * Inserting a dot-free suffix between the root and the extension of a file
   * name gives a name whose extension is the same and whose root has the suffix.
   */
  lemma SplitextWithSuffix(base: string, suffix: string)
    requires '/' !in base && '/' !in suffix && '.' !in suffix && |suffix| > 0
    ensures var (root, ext) := Splitext(base);
            Splitext(root + suffix + ext) == (root + suffix, ext)
  {
    var (root, ext) := Splitext(base);
    NoSlashInSuffixed(base, suffix);
    if ext == [] {
      SuffixWithoutExtension(base, suffix);
    } else {
      SuffixBeforeExtension(base, suffix);
    }
  }

  /**
   * Joining onto a directory a file name with a dot-free suffix inserted before
   * its extension gives a path whose basename is that name and splits there.
   */
  lemma JoinSuffixedName(dir: string, base: string, suffix: string)
    requires '/' !in base && '/' !in suffix && '.' !in suffix && |suffix| > 0
    ensures var (root, ext) := Splitext(base);
            var name := root + suffix + ext;
            Basename(Join(dir, name)) == name && Splitext(name) == (root + suffix, ext)
  {
    var (root, ext) := Splitext(base);
    NoSlashInSuffixed(base, suffix);
    BasenameOfJoin(dir, root + suffix + ext);
    SplitextWithSuffix(base, suffix);
  }

  lemma NoSlashInSuffixed(base: string, suffix: string)
    requires '/' !in base && '/' !in suffix
    ensures var (root, ext) := Splitext(base);
            '/' !in root + suffix + ext && RFind(root + suffix + ext, '/') == -1
  {
    var (root, ext) := Splitext(base);
    assert root + ext == base;
    assert '/' !in root && '/' !in ext by {
      assert forall i :: 0 <= i < |root| ==> root[i] == base[i];
      assert forall i :: 0 <= i < |ext| ==> ext[i] == base[|root| + i];
    }
    var head := root + suffix;
    assert '/' !in head;
    var q := head + ext;
    assert '/' !in q;
    RFindIs(q, '/', -1);
  }

  lemma SuffixWithoutExtension(base: string, suffix: string)
    requires '/' !in base && '/' !in suffix && '.' !in suffix
    requires Splitext(base).1 == [] && RFind(base + suffix, '/') == -1
    ensures Splitext(base + suffix) == (base + suffix, [])
  {
    var q := base + suffix;
    var dot := RFind(base, '.');
    forall i | dot < i < |q| ensures q[i] != '.' {
      if i < |base| { assert q[i] == base[i]; } else { assert q[i] == suffix[i - |base|]; }
    }
    if dot >= 0 { assert q[dot] == base[dot]; }
    RFindIs(q, '.', dot);
    RFindIs(base, '/', -1);
    forall i | -1 < i < dot ensures q[i] == base[i] { }
  }

  lemma SuffixBeforeExtension(base: string, suffix: string)
    requires '/' !in suffix && '.' !in suffix && |suffix| > 0
    requires var (root, ext) := Splitext(base); ext != [] && RFind(root + suffix + ext, '/') == -1
    ensures var (root, ext) := Splitext(base);
            Splitext(root + suffix + ext) == (root + suffix, ext)
  {
    var (root, ext) := Splitext(base);
    var head := root + suffix;
    var q := head + ext;
    var d := |head|;
    assert q[d] == ext[0] == '.';
    var rest := ext[1..];
    assert '.' !in rest;
    forall i | d < i < |q| ensures q[i] != '.' {
      assert q[i] == rest[i - d - 1];
    }
    RFindIs(q, '.', d);
    assert q[|root|] == head[|root|] == suffix[0] != '.';
    assert q[..d] == head;
    assert q[d..] == ext;
  }
}
