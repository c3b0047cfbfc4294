/**
 * The Feature Merger of the evaluation driver: one merged file holding, per
 * site file in natural sort order, that site's main-page lines relabelled -1
 * followed by the site file itself, then the background file in open world.
 * In per-site separate evaluation only the current site's file is used.
 */
module Merge {
  import opened Common

  /** The main-page lines whose first column is `site`, in file order, each
      rewritten as `-1 <rest>`. */
  function MainLinesFor(mainPages: seq<Line>, site: int): seq<Line>
  {
    if mainPages == [] then []
    else
      var last := mainPages[|mainPages| - 1];
      MainLinesFor(mainPages[..|mainPages| - 1], site)
      + (if last.classNo == site then [Line(-1, last.rest)] else [])
  }

  /** Whether site file `i` (0-based) is merged in the run for `current`. */
  predicate Included(cfg: Config, i: nat, current: nat)
  {
    !cfg.separateEval || i == current
  }

  /** What is written for site file `i`: its main-page lines, then the file. */
  function SiteBlock(cfg: Config, siteFiles: seq<seq<Line>>, mainPages: seq<Line>, i: nat): seq<Line>
    requires i < |siteFiles|
  {
    (if cfg.main then MainLinesFor(mainPages, i + 1) else []) + siteFiles[i]
  }

  /** The foreground part written for the first `n` site files. */
  function ForegroundPart(cfg: Config, siteFiles: seq<seq<Line>>, mainPages: seq<Line>, current: nat, n: nat): seq<Line>
    requires n <= |siteFiles|
  {
    if n == 0 then []
    else
      ForegroundPart(cfg, siteFiles, mainPages, current, n - 1)
      + (if Included(cfg, n - 1, current) then SiteBlock(cfg, siteFiles, mainPages, n - 1) else [])
  }

  /** The whole merged file of the run for site `current`. */
  function Merged(cfg: Config, siteFiles: seq<seq<Line>>, mainPages: seq<Line>, background: seq<Line>, current: nat): seq<Line>
  {
    ForegroundPart(cfg, siteFiles, mainPages, current, |siteFiles|)
    + (if cfg.openworld then background else [])
  }

  /** Every main-page line placed in the merged file carries label -1. */
  lemma {:induction false} MainLinesRelabelled(mainPages: seq<Line>, site: int)
    ensures forall l | l in MainLinesFor(mainPages, site) :: l.classNo == -1
    ensures |MainLinesFor(mainPages, site)| <= |mainPages|
  {
    if mainPages != [] {
      MainLinesRelabelled(mainPages[..|mainPages| - 1], site);
    }
  }

  lemma {:induction false} ForegroundOfOneSite(cfg: Config, siteFiles: seq<seq<Line>>, mainPages: seq<Line>, current: nat, n: nat)
    requires cfg.separateEval && current < |siteFiles| && n <= |siteFiles|
    ensures ForegroundPart(cfg, siteFiles, mainPages, current, n)
         == (if current < n then SiteBlock(cfg, siteFiles, mainPages, current) else [])
  {
    if n > 0 {
      ForegroundOfOneSite(cfg, siteFiles, mainPages, current, n - 1);
    }
  }

  /** In separate evaluation the merged file holds exactly the current site's
      main-page lines (matched by `current + 1`), its site file, and the
      background. */
  lemma SeparateMergeHoldsOneSite(cfg: Config, siteFiles: seq<seq<Line>>, mainPages: seq<Line>, background: seq<Line>, current: nat)
    requires cfg.separateEval && current < |siteFiles|
    ensures Merged(cfg, siteFiles, mainPages, background, current)
         == (if cfg.main then MainLinesFor(mainPages, current + 1) else [])
            + siteFiles[current] + (if cfg.openworld then background else [])
  {
    ForegroundOfOneSite(cfg, siteFiles, mainPages, current, |siteFiles|);
  }

  /** The inner loop over the main-page file (lines 523-527). */
  method AppendMainLines(merged: seq<Line>, mainPages: seq<Line>, compare: int) returns (out: seq<Line>)
    ensures out == merged + MainLinesFor(mainPages, compare)
  {
    out := merged;
    var j := 0;
    while j < |mainPages|
      invariant 0 <= j <= |mainPages|
      invariant out == merged + MainLinesFor(mainPages[..j], compare)
    {
      assert mainPages[..j + 1][..j] == mainPages[..j];
      if mainPages[j].classNo == compare {
        out := out + [Line(-1, mainPages[j].rest)];
      }
      j := j + 1;
    }
    assert mainPages[..j] == mainPages;
  }

  /** One site file's turn of the merge loop: its main-page lines (matched
      by `compare`, the site's 1-based number), then the site file. */
  method AppendSiteBlock(cfg: Config, merged: seq<Line>, siteFiles: seq<seq<Line>>, mainPages: seq<Line>, i: nat, compare: int)
    returns (out: seq<Line>)
    requires i < |siteFiles| && compare == i + 1
    ensures out == merged + SiteBlock(cfg, siteFiles, mainPages, i)
  {
    out := merged;
    if cfg.main {
      out := AppendMainLines(out, mainPages, compare);
    }
    out := out + siteFiles[i];
  }

  /** The merge loop (easy_WSC.py 509-540). `names` are the site names taken
      from the file names; `current` is the site of this run in separate
      evaluation. Returns the merged lines and the foreground name list used
      later to filter background domains (lines 483, 497, 519). */
  method MergeInputs(cfg: Config, siteFiles: seq<seq<Line>>, names: seq<string>,
                     mainPages: seq<Line>, background: seq<Line>, current: nat)
    returns (merged: seq<Line>, foreground: seq<string>)
    requires |names| == |siteFiles|
    requires cfg.separateEval ==> current < |siteFiles|
    ensures merged == Merged(cfg, siteFiles, mainPages, background, current)
    ensures foreground == if cfg.separateEval then [names[current]] else names
  {
    foreground := if cfg.separateEval then [names[current]] else [];
    merged := [];
    var site := 1;
    var i := 0;
    while i < |siteFiles|
      invariant 0 <= i <= |siteFiles|
      invariant merged == ForegroundPart(cfg, siteFiles, mainPages, current, i)
      invariant cfg.separateEval ==> foreground == [names[current]]
      invariant !cfg.separateEval ==> foreground == names[..i] && site == i + 1
    {
      assert ForegroundPart(cfg, siteFiles, mainPages, current, i + 1)
          == ForegroundPart(cfg, siteFiles, mainPages, current, i)
             + (if Included(cfg, i, current) then SiteBlock(cfg, siteFiles, mainPages, i) else []);
      // in separate evaluation every other site file is skipped
      if Included(cfg, i, current) {
        var compare: int;
        if cfg.separateEval {
          compare := current + 1;
        } else {
          assert names[..i + 1] == names[..i] + [names[i]];
          foreground := foreground + [names[i]];
          compare := site;
        }
        merged := AppendSiteBlock(cfg, merged, siteFiles, mainPages, i, compare);
        site := site + 1;
      }
      i := i + 1;
    }
    assert names[..i] == names;
    if cfg.openworld {
      merged := merged + background;
    }
  }
}
