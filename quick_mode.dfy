/**
 * Quick mode (easy_WSC.py 718-748): all pages are written once, with
 * labels, to one file for a single pooled parameter search. `className`
 * steps at every site's first slot and, without `simple`, at every other
 * page written; with a site limit, pages after the first `perSite` of a site
 * are left out.
 */
module QuickMode {
  import opened Common
  import FoldSplit

  /** The loop variables after some keys: the current label, the pages
      counted for the current site, and the lines written. */
  datatype QuickState = QuickState(className: int, pageCount: int, out: seq<Line>)

  /** Whether slot k starts a site. */
  predicate SiteStart(subpages: int, k: int)
    requires subpages >= 1
  {
    k % subpages == 1
  }

  /** Whether page n is written, given the state after the keys before it. */
  predicate Emitted(cfg: Config, subpages: int, classes: map<int, seq<Line>>, prev: QuickState, n: int)
    requires subpages >= 1
  {
    n in classes && (SiteStart(subpages, n) || !(cfg.LimitSite() && prev.pageCount >= cfg.perSite))
  }

  /** The state after the keys 1..n, visited in ascending order. */
  function QuickScan(cfg: Config, subpages: int, classes: map<int, seq<Line>>, n: int): QuickState
    requires subpages >= 1
    decreases n
  {
    if n <= 0 then QuickState(0, 1, [])
    else
      var prev := QuickScan(cfg, subpages, classes, n - 1);
      if !Emitted(cfg, subpages, classes, prev, n) then prev
      else if SiteStart(subpages, n) then
        QuickState(prev.className + 1, if cfg.main then 0 else 1, prev.out + RelabelAll(classes[n], prev.className + 1))
      else
        var cn := if cfg.simple then prev.className else prev.className + 1;
        QuickState(cn, prev.pageCount + 1, prev.out + RelabelAll(classes[n], cn))
  }

  /** The whole quick-mode file: the pages, then the background lines
      unchanged in open world. */
  function QuickFile(cfg: Config, subpages: int, classes: map<int, seq<Line>>, background: seq<Line>, maxId: int): seq<Line>
    requires subpages >= 1
  {
    QuickScan(cfg, subpages, classes, maxId).out + (if cfg.openworld then background else [])
  }

  /** The pages 1..n each written with the label the per-fold files give it
      (without skipping any slot). */
  function FoldLabelled(cfg: Config, subpages: int, classes: map<int, seq<Line>>, n: int): seq<Line>
    requires subpages >= 1
    requires forall k | 1 <= k <= n :: k in classes
    decreases n
  {
    if n <= 0 then []
    else FoldLabelled(cfg, subpages, classes, n - 1) + RelabelAll(classes[n], FoldSplit.ClassNumber(cfg, subpages, n))
  }

  /** Without a site limit and with every slot 1..n present, quick mode
      labels every page exactly as the per-fold files do: with its site when
      `simple`, with its own id otherwise. */
  lemma {:induction false} QuickAgreesWithFolds(cfg: Config, subpages: int, classes: map<int, seq<Line>>, n: int)
    requires subpages >= 1 && !cfg.LimitSite()
    requires forall k | 1 <= k <= n :: k in classes
    ensures n >= 0 ==> QuickScan(cfg, subpages, classes, n).className == FoldSplit.ClassNumber(cfg, subpages, n)
    ensures QuickScan(cfg, subpages, classes, n).out == FoldLabelled(cfg, subpages, classes, n)
    decreases n
  {
    if n > 0 {
      QuickAgreesWithFolds(cfg, subpages, classes, n - 1);
    }
  }

  /** With `simple`, every page is labelled with its site even under a site
      limit, since the label steps only at a site's first slot. */
  lemma {:induction false} QuickSimpleLabelsSites(cfg: Config, subpages: int, classes: map<int, seq<Line>>, n: int)
    requires subpages >= 1 && cfg.simple
    requires forall k | 1 <= k <= n :: k in classes
    ensures QuickScan(cfg, subpages, classes, n).className == FoldSplit.SiteCounter(subpages, n)
    decreases n
  {
    if n > 0 {
      QuickSimpleLabelsSites(cfg, subpages, classes, n - 1);
    }
  }

  /** With a site limit the two labellings can differ on a page both modes
      write: four slots per site, main pages, two pages per site and no
      `simple`. Quick mode leaves out page 4 (the first site's third
      subpage), which the per-fold files write. So page 5, the second
      site's main page, is labelled 4 in quick mode and 5 in the folds. */
  lemma QuickDivergesUnderSiteLimit(cfg: Config, classes: map<int, seq<Line>>)
    requires cfg.LimitSite() && cfg.perSite == 2 && cfg.main && !cfg.simple
    requires forall k | 1 <= k <= 5 :: k in classes
    ensures !FoldSplit.Skipped(cfg, 4, 4) && !FoldSplit.Skipped(cfg, 4, 5)
    ensures !Emitted(cfg, 4, classes, QuickScan(cfg, 4, classes, 3), 4)
    ensures Emitted(cfg, 4, classes, QuickScan(cfg, 4, classes, 4), 5)
    ensures QuickScan(cfg, 4, classes, 5).className == 4 != FoldSplit.ClassNumber(cfg, 4, 5)
  {
    assert QuickScan(cfg, 4, classes, 1).pageCount == 0;
    assert QuickScan(cfg, 4, classes, 3).className == 3 && QuickScan(cfg, 4, classes, 3).pageCount == 2;
    assert QuickScan(cfg, 4, classes, 4).className == 3;
  }

  /** Whether a written page n counts against its site's limit: every page
      but a main page. */
  predicate CountsForSite(cfg: Config, subpages: int, n: int)
    requires subpages >= 1
  {
    !(cfg.main && SiteStart(subpages, n))
  }

  /** The number of non-main pages of site s written among keys 1..n. */
  function SitePages(cfg: Config, subpages: int, classes: map<int, seq<Line>>, n: int, s: int): nat
    requires subpages >= 1
    decreases n
  {
    if n <= 0 then 0
    else
      SitePages(cfg, subpages, classes, n - 1, s)
      + (if Emitted(cfg, subpages, classes, QuickScan(cfg, subpages, classes, n - 1), n)
            && CountsForSite(cfg, subpages, n) && FoldSplit.SiteCounter(subpages, n) == s
         then 1 else 0)
  }

  lemma {:induction false} SitePagesInvariant(cfg: Config, subpages: int, classes: map<int, seq<Line>>, n: int)
    requires subpages >= 1 && cfg.LimitSite()
    ensures 0 <= QuickScan(cfg, subpages, classes, n).pageCount <= Max(cfg.perSite, 1)
    ensures SitePages(cfg, subpages, classes, n, FoldSplit.SiteCounter(subpages, n))
            <= QuickScan(cfg, subpages, classes, n).pageCount
    ensures forall s | s > FoldSplit.SiteCounter(subpages, n) :: SitePages(cfg, subpages, classes, n, s) == 0
    ensures forall s :: SitePages(cfg, subpages, classes, n, s) <= Max(cfg.perSite, 1)
    decreases n
  {
    if n > 0 {
      SitePagesInvariant(cfg, subpages, classes, n - 1);
      var site := FoldSplit.SiteCounter(subpages, n);
      assert site == FoldSplit.SiteCounter(subpages, n - 1) + (if SiteStart(subpages, n) then 1 else 0);
      forall s
        ensures SitePages(cfg, subpages, classes, n, s) <= Max(cfg.perSite, 1)
      {
        if s == site {
          assert SitePages(cfg, subpages, classes, n, s) <= QuickScan(cfg, subpages, classes, n).pageCount;
        }
      }
    }
  }

  /** With a site limit, at most `perSite` non-main pages of any site are
      written (at most one when `perSite` is 0: a site's first slot is always
      written). */
  lemma QuickSiteLimit(cfg: Config, subpages: int, classes: map<int, seq<Line>>, n: int, s: int)
    requires subpages >= 1 && cfg.LimitSite()
    ensures SitePages(cfg, subpages, classes, n, s) <= Max(cfg.perSite, 1)
  {
    SitePagesInvariant(cfg, subpages, classes, n);
  }
}
