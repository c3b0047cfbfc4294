/**
 * The per-fold train/test split (`outputInput`, easy_WSC.py 321-365). For
 * fold f every page slot k in 1..sites*subpages goes wholly to the test file
 * when it lies in that fold's window of its site, and wholly to the train
 * file otherwise, labelled with its site (`simple`) or its own id; the first
 * slot of a site is skipped when there are no main pages. The background
 * index i is tested in fold f when (f-1)*pagesPerBGFold <= i < f*pagesPerBGFold.
 */
module FoldSplit {
  import opened Common
  import Arith

  /** The `site` counter after slots 1..k: it steps at every slot with
      k % subpages == 1. */
  function SiteCounter(subpages: int, k: int): nat
    requires subpages >= 1
    decreases k
  {
    if k <= 0 then 0 else SiteCounter(subpages, k - 1) + (if k % subpages == 1 then 1 else 0)
  }

  /** With at least two slots per site, the counter is the ceiling of
      k / subpages: slot k belongs to site s iff (s-1)*subpages < k <= s*subpages. */
  lemma {:induction false} SiteCounterIsCeiling(subpages: int, k: int)
    requires subpages >= 2 && k >= 0
    ensures SiteCounter(subpages, k) == (k + subpages - 1) / subpages
    decreases k
  {
    if k > 0 {
      SiteCounterIsCeiling(subpages, k - 1);
      var q, r := (k - 1) / subpages, (k - 1) % subpages;
      assert k - 1 == q * subpages + r;
      Arith.DivModUnique(k + subpages - 1, subpages, q + 1, r);
      if r == 0 {
        Arith.DivModUnique(k + subpages - 2, subpages, q, subpages - 1);
        Arith.DivModUnique(k, subpages, q, 1);
      } else {
        Arith.DivModUnique(k + subpages - 2, subpages, q + 1, r - 1);
        if r + 1 < subpages {
          Arith.DivModUnique(k, subpages, q, r + 1);
        } else {
          Arith.DivModUnique(k, subpages, q + 1, 0);
        }
      }
    }
  }

  /** The site whose block holds slot k, for k >= 1. */
  lemma SiteBlock(subpages: int, k: int)
    requires subpages >= 2 && k >= 1
    ensures SiteCounter(subpages, k) >= 1
    ensures (SiteCounter(subpages, k) - 1) * subpages < k <= SiteCounter(subpages, k) * subpages
  {
    SiteCounterIsCeiling(subpages, k);
    Arith.CeilingBlock(k, subpages);
  }

  /** And conversely: a slot in site s's block is counted as site s. */
  lemma SlotOfSite(subpages: int, s: int, k: int)
    requires subpages >= 2 && s >= 1 && (s - 1) * subpages < k <= s * subpages
    ensures SiteCounter(subpages, k) == s
  {
    Arith.MulMono(0, s - 1, subpages);
    SiteCounterIsCeiling(subpages, k);
    Arith.DivModUnique(k + subpages - 1, subpages, s, k - 1 - (s - 1) * subpages);
  }

  /** The label written for slot k. */
  function ClassNumber(cfg: Config, subpages: int, k: int): int
    requires subpages >= 1
  {
    if cfg.simple then SiteCounter(subpages, k) else k
  }

  /** The first slot of a site is not written when there are no main pages. */
  predicate Skipped(cfg: Config, subpages: int, k: int)
    requires subpages >= 1
  {
    k % subpages == 1 && !cfg.main
  }

  /** Fold f's test window in the site of slot k, as written: it starts f
      slots after the site's first slot and spans `pagesPerFold` slots. */
  function TestLo(subpages: int, f: int, k: int): int
    requires subpages >= 1
  {
    f + 1 + (SiteCounter(subpages, k) - 1) * subpages
  }

  function TestHi(subpages: int, pagesPerFold: int, f: int, k: int): int
    requires subpages >= 1
  {
    f + pagesPerFold + (SiteCounter(subpages, k) - 1) * subpages
  }

  predicate InTestWindow(subpages: int, pagesPerFold: int, f: int, k: int)
    requires subpages >= 1
  {
    TestLo(subpages, f, k) <= k <= TestHi(subpages, pagesPerFold, f, k)
  }

  /** The lines of one fold's train and test files. */
  datatype FoldFiles = FoldFiles(train: seq<Line>, test: seq<Line>)

  /** The page part of fold f's files after slots 1..n. */
  function PagesPart(cfg: Config, subpages: int, pagesPerFold: int, classes: map<int, seq<Line>>, f: int, n: int): FoldFiles
    requires subpages >= 1
    requires forall k | 1 <= k <= n && !Skipped(cfg, subpages, k) :: k in classes
    decreases n
  {
    if n <= 0 then FoldFiles([], [])
    else
      var prev := PagesPart(cfg, subpages, pagesPerFold, classes, f, n - 1);
      if Skipped(cfg, subpages, n) then prev
      else
        var lines := RelabelAll(classes[n], ClassNumber(cfg, subpages, n));
        if InTestWindow(subpages, pagesPerFold, f, n) then FoldFiles(prev.train, prev.test + lines)
        else FoldFiles(prev.train + lines, prev.test)
  }

  /** Whether background index i is in fold f's test share. */
  predicate InBgTest(perBgFold: int, f: int, i: int)
  {
    (f - 1) * perBgFold <= i < f * perBgFold
  }

  /** The background part of fold f's files after indexes 0..n-1. */
  function BackgroundPart(background: seq<Line>, perBgFold: int, f: int, n: nat): FoldFiles
    requires n <= |background|
  {
    if n == 0 then FoldFiles([], [])
    else
      var prev := BackgroundPart(background, perBgFold, f, n - 1);
      if InBgTest(perBgFold, f, n - 1) then FoldFiles(prev.train, prev.test + [background[n - 1]])
      else FoldFiles(prev.train + [background[n - 1]], prev.test)
  }

  /** Fold f's train and test files. */
  function FoldOutput(cfg: Config, subpages: int, pagesPerFold: int, perBgFold: int, sites: int,
                      classes: map<int, seq<Line>>, background: seq<Line>, f: int): FoldFiles
    requires subpages >= 1
    requires forall k | 1 <= k <= sites * subpages && !Skipped(cfg, subpages, k) :: k in classes
  {
    var pages := PagesPart(cfg, subpages, pagesPerFold, classes, f, sites * subpages);
    if cfg.openworld then
      var bg := BackgroundPart(background, perBgFold, f, |background|);
      FoldFiles(pages.train + bg.train, pages.test + bg.test)
    else pages
  }

  /** Every line written for a page carries that page's class number, and
      keeps its text after the label. */
  lemma {:induction false} PagesPartLabels(cfg: Config, subpages: int, pagesPerFold: int, classes: map<int, seq<Line>>, f: int, n: int)
    requires subpages >= 1
    requires forall k | 1 <= k <= n && !Skipped(cfg, subpages, k) :: k in classes
    ensures forall l | l in PagesPart(cfg, subpages, pagesPerFold, classes, f, n).train
                                 + PagesPart(cfg, subpages, pagesPerFold, classes, f, n).test ::
              exists k | 1 <= k <= n && !Skipped(cfg, subpages, k) ::
                l.classNo == ClassNumber(cfg, subpages, k) && exists m | m in classes[k] :: m.rest == l.rest
    decreases n
  {
    if n > 0 {
      PagesPartLabels(cfg, subpages, pagesPerFold, classes, f, n - 1);
      var prev := PagesPart(cfg, subpages, pagesPerFold, classes, f, n - 1);
      if !Skipped(cfg, subpages, n) {
        var lines := RelabelAll(classes[n], ClassNumber(cfg, subpages, n));
        forall l | l in lines
          ensures l.classNo == ClassNumber(cfg, subpages, n) && exists m | m in classes[n] :: m.rest == l.rest
        {
          var i :| 0 <= i < |lines| && lines[i] == l;
          assert classes[n][i] in classes[n];
        }
      }
    }
  }

  /** The lines of the pages among slots 1..n that are not skipped, in slot
      order, each relabelled with its page's class number. */
  function Written(cfg: Config, subpages: int, classes: map<int, seq<Line>>, n: int): seq<Line>
    requires subpages >= 1
    requires forall k | 1 <= k <= n && !Skipped(cfg, subpages, k) :: k in classes
    decreases n
  {
    if n <= 0 then []
    else Written(cfg, subpages, classes, n - 1)
         + (if Skipped(cfg, subpages, n) then [] else RelabelAll(classes[n], ClassNumber(cfg, subpages, n)))
  }

  /** One slot's step of a page split: appending a page's lines to the train
      or the test file keeps the files' lines equal, as a multiset, to the
      lines of the pages visited. */
  lemma ConserveStep(prev: FoldFiles, cur: FoldFiles, lines: seq<Line>, before: seq<Line>, after: seq<Line>)
    requires multiset(prev.train + prev.test) == multiset(before)
    requires cur == FoldFiles(prev.train, prev.test + lines) || cur == FoldFiles(prev.train + lines, prev.test)
    requires after == before + lines
    ensures multiset(cur.train + cur.test) == multiset(after)
  {
    assert multiset(cur.train + cur.test) == multiset(prev.train + prev.test) + multiset(lines);
  }

  /** One fold's page part holds exactly the relabelled lines of the pages
      that are not skipped, each as often as it occurs there: none is lost
      and none is duplicated. */
  lemma {:induction false} PagesPartConserves(cfg: Config, subpages: int, pagesPerFold: int, classes: map<int, seq<Line>>, f: int, n: int)
    requires subpages >= 1
    requires forall k | 1 <= k <= n && !Skipped(cfg, subpages, k) :: k in classes
    ensures multiset(PagesPart(cfg, subpages, pagesPerFold, classes, f, n).train
                     + PagesPart(cfg, subpages, pagesPerFold, classes, f, n).test)
            == multiset(Written(cfg, subpages, classes, n))
    decreases n
  {
    if n > 0 {
      PagesPartConserves(cfg, subpages, pagesPerFold, classes, f, n - 1);
      var prev := PagesPart(cfg, subpages, pagesPerFold, classes, f, n - 1);
      var cur := PagesPart(cfg, subpages, pagesPerFold, classes, f, n);
      if Skipped(cfg, subpages, n) {
        assert cur == prev;
        assert Written(cfg, subpages, classes, n) == Written(cfg, subpages, classes, n - 1);
      } else {
        var lines := RelabelAll(classes[n], ClassNumber(cfg, subpages, n));
        ConserveStep(prev, cur, lines, Written(cfg, subpages, classes, n - 1), Written(cfg, subpages, classes, n));
      }
    }
  }

  /** A site's first slot is never in a test window of a fold f >= 1: with
      main pages, every main page is training data of every fold. */
  lemma FirstSlotNeverTested(subpages: int, pagesPerFold: int, f: int, s: int)
    requires subpages >= 2 && s >= 1 && f >= 1
    ensures !InTestWindow(subpages, pagesPerFold, f, (s - 1) * subpages + 1)
  {
    var base := (s - 1) * subpages;
    assert s * subpages == base + subpages;
    SlotOfSite(subpages, s, base + 1);
    assert TestLo(subpages, f, base + 1) == f + 1 + base;
  }

  /** Fold f tests, from site s, exactly the slots f+1..f+pagesPerFold after
      the site's first slot that lie in the site. */
  lemma TestedSlots(subpages: int, pagesPerFold: int, f: int, s: int, k: int)
    requires subpages >= 2 && s >= 1 && (s - 1) * subpages < k <= s * subpages
    ensures InTestWindow(subpages, pagesPerFold, f, k)
            <==> f + 1 <= k - (s - 1) * subpages <= f + pagesPerFold
  {
    SlotOfSite(subpages, s, k);
  }

  /** With main pages and no site limit (one main slot, then
      pagesPerFold * folds subpages), every fold's window f+1..f+pagesPerFold
      lies inside the site's block, so each fold tests pagesPerFold pages of
      every site. */
  lemma MainWindowInsideBlock(subpages: int, pagesPerFold: int, folds: int, f: int)
    requires pagesPerFold >= 1 && 1 <= f <= folds && subpages == pagesPerFold * folds + 1
    ensures 2 <= f + 1 && f + pagesPerFold <= subpages
  {
    Arith.MulMono(1, folds, pagesPerFold - 1);
    assert pagesPerFold * folds == (pagesPerFold - 1) * folds + folds;
  }

  /** With main pages and one page per fold (subpages - 1 == folds), the
      windows split the subpages of each site: slot k is tested in exactly
      one fold in 1..folds, the fold k - (s-1)*subpages - 1. */
  lemma OnePagePerFoldPartitions(subpages: int, folds: int, s: int, k: int, f: int)
    requires subpages >= 2 && folds == subpages - 1 && s >= 1
    requires (s - 1) * subpages + 1 < k <= s * subpages && 1 <= f <= folds
    ensures InTestWindow(subpages, 1, f, k) <==> f == k - (s - 1) * subpages - 1
  {
    TestedSlots(subpages, 1, f, s, k);
  }

  /** As written, wider windows overlap and miss pages: a site of one main
      page and six subpages in three folds of two pages each has slot 3
      tested in folds 1 and 2, and slot 7 tested in none. */
  lemma OverlappingWindows()
    ensures InTestWindow(7, 2, 1, 3) && InTestWindow(7, 2, 2, 3)
    ensures forall f | 1 <= f <= 3 :: !InTestWindow(7, 2, f, 7)
  {
    SlotOfSite(7, 1, 3);
    SlotOfSite(7, 1, 7);
  }

  /** The window evidently intended: fold f tests the f-th run of
      `pagesPerFold` subpages after the site's main slot. */
  predicate InIntendedWindow(cfg: Config, subpages: int, pagesPerFold: int, f: int, k: int)
    requires subpages >= 1
  {
    var offset := k - (SiteCounter(subpages, k) - 1) * subpages - (if cfg.main then 1 else 0);
    (f - 1) * pagesPerFold < offset <= f * pagesPerFold
  }

  /** The intended windows split the subpages: when pagesPerFold * folds
      subpages follow the main slot, each of them is tested in exactly one
      fold, the ceiling of its offset over pagesPerFold. */
  lemma IntendedWindowsPartition(cfg: Config, subpages: int, pagesPerFold: int, folds: int, s: int, k: int, f: int)
    requires subpages >= 2 && pagesPerFold >= 1 && 1 <= f <= folds
    requires subpages == pagesPerFold * folds + (if cfg.main then 1 else 0)
    requires s >= 1 && (s - 1) * subpages + (if cfg.main then 1 else 0) < k <= s * subpages
    ensures InIntendedWindow(cfg, subpages, pagesPerFold, f, k)
            <==> f == (k - (s - 1) * subpages - (if cfg.main then 1 else 0) - 1) / pagesPerFold + 1
  {
    SlotOfSite(subpages, s, k);
    var offset := k - (s - 1) * subpages - (if cfg.main then 1 else 0);
    assert offset >= 1;
    OffsetFold(pagesPerFold, offset, f);
  }

  /** As written, without main pages the first slot of every site is
      skipped, yet the windows still start at offset f + 1: with one site of
      two slots, two folds and one page per fold, page 1 is written to no
      file and fold 2's test file gets no page at all. */
  lemma NoMainDropsFirstSubpage(cfg: Config, a: Line, b: Line)
    requires !cfg.main
    ensures var classes := map[1 := [a], 2 := [b]];
            var lines := RelabelAll([b], ClassNumber(cfg, 2, 2));
            && PagesPart(cfg, 2, 1, classes, 1, 2) == FoldFiles([], lines)
            && PagesPart(cfg, 2, 1, classes, 2, 2) == FoldFiles(lines, [])
            && Written(cfg, 2, classes, 2) == lines
  {
    var classes := map[1 := [a], 2 := [b]];
    assert Skipped(cfg, 2, 1) && !Skipped(cfg, 2, 2);
    SlotOfSite(2, 1, 2);
    assert InTestWindow(2, 1, 1, 2) && !InTestWindow(2, 1, 2, 2);
    assert PagesPart(cfg, 2, 1, classes, 1, 1) == FoldFiles([], []);
    assert PagesPart(cfg, 2, 1, classes, 2, 1) == FoldFiles([], []);
    assert Written(cfg, 2, classes, 1) == [];
  }

  /** The page part of fold f's files as evidently intended: no slot is
      skipped, and slot k is tested in fold f iff it lies in the intended
      window (a main slot lies in none, so it is training data of every
      fold). */
  function IntendedPagesPart(cfg: Config, subpages: int, pagesPerFold: int, classes: map<int, seq<Line>>, f: int, n: int): FoldFiles
    requires subpages >= 1
    requires forall k | 1 <= k <= n :: k in classes
    decreases n
  {
    if n <= 0 then FoldFiles([], [])
    else
      var prev := IntendedPagesPart(cfg, subpages, pagesPerFold, classes, f, n - 1);
      var lines := RelabelAll(classes[n], ClassNumber(cfg, subpages, n));
      if InIntendedWindow(cfg, subpages, pagesPerFold, f, n) then FoldFiles(prev.train, prev.test + lines)
      else FoldFiles(prev.train + lines, prev.test)
  }

  /** The lines of all pages among slots 1..n, in slot order, each
      relabelled with its page's class number. */
  function AllWritten(cfg: Config, subpages: int, classes: map<int, seq<Line>>, n: int): seq<Line>
    requires subpages >= 1
    requires forall k | 1 <= k <= n :: k in classes
    decreases n
  {
    if n <= 0 then []
    else AllWritten(cfg, subpages, classes, n - 1) + RelabelAll(classes[n], ClassNumber(cfg, subpages, n))
  }

  /** With the intended split every page is written to each fold's files:
      their page parts hold exactly the relabelled lines of all pages, each
      as often as it occurs there, with or without main pages. */
  lemma {:induction false} IntendedPagesPartConserves(cfg: Config, subpages: int, pagesPerFold: int, classes: map<int, seq<Line>>, f: int, n: int)
    requires subpages >= 1
    requires forall k | 1 <= k <= n :: k in classes
    ensures multiset(IntendedPagesPart(cfg, subpages, pagesPerFold, classes, f, n).train
                     + IntendedPagesPart(cfg, subpages, pagesPerFold, classes, f, n).test)
            == multiset(AllWritten(cfg, subpages, classes, n))
    decreases n
  {
    if n > 0 {
      IntendedPagesPartConserves(cfg, subpages, pagesPerFold, classes, f, n - 1);
      var prev := IntendedPagesPart(cfg, subpages, pagesPerFold, classes, f, n - 1);
      var cur := IntendedPagesPart(cfg, subpages, pagesPerFold, classes, f, n);
      var lines := RelabelAll(classes[n], ClassNumber(cfg, subpages, n));
      ConserveStep(prev, cur, lines, AllWritten(cfg, subpages, classes, n - 1), AllWritten(cfg, subpages, classes, n));
    }
  }

  /** The input of NoMainDropsFirstSubpage under the intended split: fold 1
      tests page 1 and trains on page 2, fold 2 the other way round. */
  lemma IntendedNoMainExample(cfg: Config, a: Line, b: Line)
    requires !cfg.main
    ensures var classes := map[1 := [a], 2 := [b]];
            var la, lb := RelabelAll([a], ClassNumber(cfg, 2, 1)), RelabelAll([b], ClassNumber(cfg, 2, 2));
            && IntendedPagesPart(cfg, 2, 1, classes, 1, 2) == FoldFiles(lb, la)
            && IntendedPagesPart(cfg, 2, 1, classes, 2, 2) == FoldFiles(la, lb)
  {
    var classes := map[1 := [a], 2 := [b]];
    SlotOfSite(2, 1, 1);
    SlotOfSite(2, 1, 2);
    assert InIntendedWindow(cfg, 2, 1, 1, 1) && !InIntendedWindow(cfg, 2, 1, 2, 1);
    assert !InIntendedWindow(cfg, 2, 1, 1, 2) && InIntendedWindow(cfg, 2, 1, 2, 2);
  }

  /** The run of width w holding position offset >= 1 is the ceiling of
      offset / w. */
  lemma OffsetFold(w: int, offset: int, f: int)
    requires w >= 1 && offset >= 1
    ensures (f - 1) * w < offset <= f * w <==> f == (offset - 1) / w + 1
  {
    var q, r := (offset - 1) / w, (offset - 1) % w;
    assert offset - 1 == q * w + r;
    if f - 1 < q {
      Arith.MulMono(f, q, w);
    } else if f - 1 > q {
      Arith.MulMono(q + 1, f - 1, w);
    }
  }

  /** Background index i < folds * perBgFold is tested in exactly one fold:
      the fold i / perBgFold + 1. */
  lemma BackgroundTestedOnce(perBgFold: int, folds: int, i: int, f: int)
    requires perBgFold >= 1 && 0 <= i < folds * perBgFold
    ensures InBgTest(perBgFold, f, i) <==> f == i / perBgFold + 1
  {
    var q, r := i / perBgFold, i % perBgFold;
    assert i == q * perBgFold + r;
    if f - 1 < q {
      Arith.MulMono(f, q, perBgFold);
    } else if f - 1 > q {
      Arith.MulMono(q + 1, f - 1, perBgFold);
    }
  }

  /** Fold f's test share of the background is the slice of indexes
      (f-1)*perBgFold .. f*perBgFold, and its train share everything else,
      in order. */
  lemma BackgroundPartSlices(background: seq<Line>, perBgFold: int, f: int, n: nat)
    requires perBgFold >= 0 && f >= 1 && n <= |background|
    requires f * perBgFold <= |background|
    ensures var lo, hi := (f - 1) * perBgFold, f * perBgFold;
            var lo', hi' := if n < lo then n else lo, if n < hi then n else hi;
            BackgroundPart(background, perBgFold, f, n)
              == FoldFiles(background[..lo'] + background[hi'..n], background[lo'..hi'])
  {
    Arith.MulMono(f - 1, f, perBgFold);
    Arith.MulMono(0, f - 1, perBgFold);
    BackgroundTestWindow(background, perBgFold, f, n, (f - 1) * perBgFold, f * perBgFold);
    BackgroundTrainWindow(background, perBgFold, f, n, (f - 1) * perBgFold, f * perBgFold);
  }

  /** The test half of BackgroundPartSlices, with the fold's test range
      lo..hi-1 named so that the induction over n sees no products. */
  lemma {:induction false} BackgroundTestWindow(background: seq<Line>, perBgFold: int, f: int, n: nat, lo: int, hi: int)
    requires n <= |background|
    requires lo == (f - 1) * perBgFold && hi == f * perBgFold && 0 <= lo <= hi
    ensures var lo', hi' := if n < lo then n else lo, if n < hi then n else hi;
            BackgroundPart(background, perBgFold, f, n).test == background[lo'..hi']
    decreases n
  {
    if n > 0 {
      BackgroundTestWindow(background, perBgFold, f, n - 1, lo, hi);
      if lo <= n - 1 < hi {
        assert background[lo..n] == background[lo..n - 1] + [background[n - 1]];
      }
    }
  }

  /** The train half of BackgroundPartSlices. */
  lemma {:induction false} BackgroundTrainWindow(background: seq<Line>, perBgFold: int, f: int, n: nat, lo: int, hi: int)
    requires n <= |background|
    requires lo == (f - 1) * perBgFold && hi == f * perBgFold && 0 <= lo <= hi
    ensures var lo', hi' := if n < lo then n else lo, if n < hi then n else hi;
            BackgroundPart(background, perBgFold, f, n).train == background[..lo'] + background[hi'..n]
    decreases n
  {
    if n > 0 {
      BackgroundTrainWindow(background, perBgFold, f, n - 1, lo, hi);
      if n - 1 < lo {
        assert background[..n] == background[..n - 1] + [background[n - 1]];
      } else if n - 1 >= hi {
        assert background[hi..n] == background[hi..n - 1] + [background[n - 1]];
      }
    }
  }

  /** The test shares of folds 1..m, one after another. */
  function TestShares(background: seq<Line>, perBgFold: nat, m: nat): seq<Line>
    requires m * perBgFold <= |background|
  {
    if m == 0 then []
    else
      assert (m - 1) * perBgFold <= m * perBgFold by {
        Arith.MulMono(m - 1, m, perBgFold);
      }
      TestShares(background, perBgFold, m - 1) + BackgroundPart(background, perBgFold, m, |background|).test
  }

  /** Over folds 1..folds the test shares put every background line of a
      trimmed background (folds * perBgFold lines) in a test file exactly
      once and in order. */
  lemma {:induction false} TestSharesCover(background: seq<Line>, perBgFold: nat, m: nat)
    requires m * perBgFold <= |background|
    ensures TestShares(background, perBgFold, m) == background[..m * perBgFold]
    decreases m
  {
    if m > 0 {
      Arith.MulMono(m - 1, m, perBgFold);
      TestSharesCover(background, perBgFold, m - 1);
      BackgroundPartSlices(background, perBgFold, m, |background|);
      assert (m - 1) * perBgFold >= 0 by {
        Arith.MulMono(0, m - 1, perBgFold);
      }
      assert background[..m * perBgFold]
          == background[..(m - 1) * perBgFold] + background[(m - 1) * perBgFold..m * perBgFold];
    }
  }
}
