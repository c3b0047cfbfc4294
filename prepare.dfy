/**
 * The stand-alone preparation script: concatenates the per-site feature files
 * (in natural sort order) into one closed-world file whose every line carries
 * its site's 1-based position as label, writes the list of site file names,
 * and appends the main-page file unchanged when main pages are used.
 */
module Prepare {
  import opened Common

  /** A per-site feature file: its base name and its lines. */
  datatype SiteFile = SiteFile(name: string, lines: seq<Line>)

  /** The merged lines of the first `n` site files: each file's lines in file
      order, relabelled with the file's 1-based position. */
  function SiteBlocks(files: seq<SiteFile>, n: nat): seq<Line>
    requires n <= |files|
  {
    if n == 0 then [] else SiteBlocks(files, n - 1) + RelabelAll(files[n - 1].lines, n)
  }

  /** Number of lines in the first `n` site files. */
  function LineTotal(files: seq<SiteFile>, n: nat): nat
    requires n <= |files|
  {
    if n == 0 then 0 else LineTotal(files, n - 1) + |files[n - 1].lines|
  }

  function BaseNames(files: seq<SiteFile>): seq<string>
  {
    seq(|files|, i requires 0 <= i < |files| => files[i].name)
  }

  /** The merged file holds exactly as many lines as the site files together. */
  lemma {:induction false} SiteBlocksLength(files: seq<SiteFile>, n: nat)
    requires n <= |files|
    ensures |SiteBlocks(files, n)| == LineTotal(files, n)
  {
    if n > 0 {
      SiteBlocksLength(files, n - 1);
    }
  }

  /** Line `j` of the `i`-th site file (0-based) sits at offset
      `LineTotal(files, i) + j` of the merged file, as `<i+1> <rest>`: site files
      keep their sort order, lines keep their file order, and every page of a
      site collapses onto the site's label. */
  lemma {:induction false} SiteBlocksAt(files: seq<SiteFile>, n: nat, i: nat, j: nat)
    requires n <= |files| && i < n && j < |files[i].lines|
    ensures LineTotal(files, i) + j < |SiteBlocks(files, n)|
    ensures SiteBlocks(files, n)[LineTotal(files, i) + j] == Line(i + 1, files[i].lines[j].rest)
  {
    SiteBlocksLength(files, n - 1);
    if i < n - 1 {
      SiteBlocksAt(files, n - 1, i, j);
    } else {
      assert i == n - 1;
    }
  }

  /** The relabel-and-concatenate loop (PrepareWSC.py 37-50) followed by the
      main-page append (54-59). */
  method PrepareMerged(files: seq<SiteFile>, mainPages: seq<Line>, main: bool)
    returns (merged: seq<Line>, info: seq<string>)
    ensures merged == SiteBlocks(files, |files|) + (if main then mainPages else [])
    ensures |merged| == LineTotal(files, |files|) + (if main then |mainPages| else 0)
    ensures info == BaseNames(files)
  {
    merged, info := [], [];
    var site := 1;
    var i := 0;
    while i < |files|
      invariant 0 <= i <= |files| && site == i + 1
      invariant merged == SiteBlocks(files, i)
      invariant info == BaseNames(files)[..i]
    {
      var lines := files[i].lines;
      var j := 0;
      while j < |lines|
        invariant 0 <= j <= |lines|
        invariant merged == SiteBlocks(files, i) + RelabelAll(lines[..j], site)
      {
        merged := merged + [Line(site, lines[j].rest)];
        j := j + 1;
      }
      assert lines[..j] == lines;
      info := info + [files[i].name];
      site := site + 1;
      i := i + 1;
    }
    if main {
      var j := 0;
      while j < |mainPages|
        invariant 0 <= j <= |mainPages|
        invariant merged == SiteBlocks(files, |files|) + mainPages[..j]
      {
        merged := merged + [mainPages[j]];
        j := j + 1;
      }
    }
    SiteBlocksLength(files, |files|);
  }
}
