/**
 * The page dictionary and the background list of a run, as the source keeps
 * them in the globals `classes` and `background` and updates them in place
 * between building them (easy_WSC.py 551-594) and writing the fold files:
 * the shuffles (618-641), the background trim (643-662), the instance limit
 * and check (664-706), and the two writers (321-365 and 718-748).
 */
module Dataset {
  import opened Common
  import ClassBuilder
  import Shuffle
  import FoldPlan
  import InstanceLimit
  import FoldSplit
  import QuickMode

  /** `lst[::-1]`, as the source's `tmp.reverse()` leaves it. */
  function Reversed<T>(s: seq<T>): (r: seq<T>)
    ensures |r| == |s|
    ensures forall i | 0 <= i < |s| :: r[i] == s[|s| - 1 - i]
  {
    if s == [] then [] else Reversed(s[1..]) + [s[0]]
  }

  /** Writing w[j - lo] into slot j extends the filled part lo..j-1 of the
      window by one slot. */
  lemma FillStep(pages: map<int, seq<Line>>, before: map<int, seq<Line>>, after: map<int, seq<Line>>,
                 lo: int, j: int, w: seq<seq<Line>>)
    requires 0 <= j - lo < |w| && j in pages && before.Keys == pages.Keys
    requires forall m | m in pages :: before[m] == if lo <= m < j then w[m - lo] else pages[m]
    requires after == before[j := w[j - lo]]
    ensures after.Keys == pages.Keys
    ensures forall m | m in pages :: after[m] == if lo <= m < j + 1 then w[m - lo] else pages[m]
  {
  }

  class Dataset {
    /** Page id -> the lines of that page. */
    var classes: map<int, seq<Line>>
    /** The background lines (open world). */
    var background: seq<Line>
    /** The last page id handed out; every key lies in 1..maxId, and keys
        are visited in ascending order as the dictionary was filled. */
    const maxId: nat

    ghost predicate Valid()
      reads this
    {
      forall k | k in classes :: 1 <= k <= maxId
    }

    constructor (built: ClassBuilder.Built)
      requires forall k | k in built.classes :: 1 <= k <= built.maxId
      ensures classes == built.classes && background == built.background && maxId == built.maxId
      ensures Valid()
    {
      classes := built.classes;
      background := built.background;
      maxId := built.maxId;
    }

    /** easy_WSC.py 619-623: `random.shuffle` of every page's instances with
        the draws `draws[k]`, and of the background with `bgDraws` in open
        world. */
    method ShuffleInstances(cfg: Config, draws: map<int, seq<nat>>, bgDraws: seq<nat>)
      requires Valid()
      requires forall k | k in classes :: k in draws && Shuffle.ValidChoices(draws[k], |classes[k]|)
      requires cfg.openworld ==> Shuffle.ValidChoices(bgDraws, |background|)
      modifies this
      ensures Valid()
      ensures classes == Shuffle.ShuffledInstances(old(classes), draws)
      ensures background == if cfg.openworld then Shuffle.Shuffled(old(background), bgDraws) else old(background)
    {
      classes := ShuffledPages(classes, maxId, draws);
      if cfg.openworld {
        background := Shuffle.ShuffleList(background, bgDraws);
      }
    }

    /** easy_WSC.py 624-641: for each site, the pages of its window are
        collected into `tmp`, shuffled with the draws `draws[s - 1]`,
        reversed, and popped back into the window's slots in order. */
    method ShuffleSubpages(cfg: Config, subpages: int, sites: int, draws: seq<seq<nat>>)
      requires subpages >= 1 && sites >= 0 && Valid()
      requires Shuffle.WindowsPresent(cfg, classes, subpages, sites)
      requires Shuffle.ValidDraws(cfg, subpages, draws, sites)
      modifies this
      ensures Valid()
      ensures classes == Shuffle.SubpageShuffle(cfg, old(classes), subpages, draws, sites, sites)
      ensures background == old(background)
    {
      ghost var c0 := classes;
      Shuffle.SubpageShuffleNone(cfg, c0, subpages, draws, sites);
      var s := 1;
      while s <= sites
        invariant 1 <= s <= sites + 1
        invariant classes == Shuffle.SubpageShuffle(cfg, c0, subpages, draws, sites, s - 1)
        invariant classes.Keys == c0.Keys && background == old(background)
      {
        ShuffleNextSite(cfg, c0, subpages, draws, sites, s);
        s := s + 1;
      }
    }

    /** The body of the site loop: given the shuffle of sites 1..s-1, one
        more iteration yields the shuffle of sites 1..s. */
    method ShuffleNextSite(cfg: Config, ghost c0: map<int, seq<Line>>, subpages: int, draws: seq<seq<nat>>,
                           sites: int, s: int)
      requires subpages >= 1 && 1 <= s <= sites
      requires Shuffle.WindowsPresent(cfg, c0, subpages, sites)
      requires Shuffle.ValidDraws(cfg, subpages, draws, sites)
      requires classes == Shuffle.SubpageShuffle(cfg, c0, subpages, draws, sites, s - 1)
      requires classes.Keys == c0.Keys
      modifies this
      ensures classes == Shuffle.SubpageShuffle(cfg, c0, subpages, draws, sites, s)
      ensures classes.Keys == c0.Keys && background == old(background)
    {
      ghost var prev := classes;
      ghost var lo, hi := Shuffle.WindowLo(cfg, subpages, s), Shuffle.WindowHi(subpages, s);
      Shuffle.WindowUntouched(cfg, c0, subpages, draws, sites, s);
      Shuffle.WindowWidth(cfg, subpages, s);
      ShuffleSite(cfg, subpages, s, draws[s - 1]);
      Shuffle.SubpageShuffleSite(cfg, c0, subpages, draws, sites, s, lo, hi, prev, classes);
    }

    /** One iteration of the site loop: the pages of site s's window are
        replaced by their shuffle with the draws `choices`; every other slot
        keeps its page. */
    method ShuffleSite(cfg: Config, subpages: int, s: int, choices: seq<nat>)
      requires subpages >= 1
      requires forall j | Shuffle.WindowLo(cfg, subpages, s) <= j <= Shuffle.WindowHi(subpages, s) :: j in classes
      requires Shuffle.ValidChoices(choices, Max(0, Shuffle.WindowHi(subpages, s) - Shuffle.WindowLo(cfg, subpages, s) + 1))
      modifies this
      ensures background == old(background)
      ensures classes == Shuffle.ReplaceWindow(old(classes), Shuffle.WindowLo(cfg, subpages, s), Shuffle.WindowHi(subpages, s),
                                               Shuffle.Shuffled(Shuffle.WindowPages(old(classes), Shuffle.WindowLo(cfg, subpages, s),
                                                                                    Shuffle.WindowHi(subpages, s)), choices))
    {
      var lower := (s - 1) * subpages + 1;
      if cfg.main {
        lower := lower + 1;
      }
      var higher := s * subpages;
      assert lower == Shuffle.WindowLo(cfg, subpages, s) && higher == Shuffle.WindowHi(subpages, s);
      ShuffleWindow(lower, higher, choices);
    }

    /** The body of the site loop once `lower` and `higher` are known: the
        window's pages are collected, shuffled, reversed and popped back. */
    method ShuffleWindow(lower: int, higher: int, choices: seq<nat>)
      requires forall j | lower <= j <= higher :: j in classes
      requires Shuffle.ValidChoices(choices, Max(0, higher - lower + 1))
      modifies this
      ensures background == old(background)
      ensures classes == Shuffle.ReplaceWindow(old(classes), lower, higher,
                                               Shuffle.Shuffled(Shuffle.WindowPages(old(classes), lower, higher), choices))
    {
      ghost var window := Shuffle.WindowPages(classes, lower, higher);
      var tmp := CollectWindow(lower, higher);
      tmp := Shuffle.ShuffleList(tmp, choices);
      ghost var shuffled := tmp;
      assert shuffled == Shuffle.Shuffled(window, choices);
      tmp := Reversed(tmp);
      PopWindow(lower, higher, tmp, shuffled);
    }

    /** easy_WSC.py 643-662: the background is cut to `bg_size` lines (the
        largest multiple of the fold count when no limit was given) and split
        into equal test shares. */
    method TrimBackground(cfg: Config) returns (r: Result<FoldPlan.BgPlan>)
      requires cfg.openworld
      modifies this
      ensures r == FoldPlan.PlanBackground(cfg, |old(background)|)
      ensures r.Ok? ==> background == old(background)[..r.value.bgSize]
      ensures classes == old(classes)
    {
      var size := cfg.bgSize;
      if !cfg.LimitBackground() {
        size := |background|;
        if size % cfg.folds != 0 {
          size := size / cfg.folds * cfg.folds;
        }
      }
      if |background| >= size {
        background := background[..size];
      } else {
        return Err(BackgroundTooSmall(|background|));
      }
      if size % cfg.folds == 0 {
        r := Ok(FoldPlan.BgPlan(size, size / cfg.folds));
      } else {
        r := Err(BackgroundNotDivisible);
      }
    }

    /** easy_WSC.py 664-706: the reference counts, the limiting loop and the
        equal-instances loop. */
    method LimitInstances(cfg: Config, subpages: int) returns (r: Result<InstanceLimit.Counts>)
      requires subpages >= 1 && Valid()
      modifies this
      ensures r.Ok? <==> InstanceLimit.LimitAndCheck(cfg, subpages, old(classes), maxId).Ok?
      ensures r.Ok? ==> (classes, r.value) == InstanceLimit.LimitAndCheck(cfg, subpages, old(classes), maxId).value
      ensures r.Err? ==> r.fault == InstanceLimit.LimitAndCheck(cfg, subpages, old(classes), maxId).fault
      ensures r.Ok? ==> Valid()
      ensures background == old(background)
    {
      var instances, instancesMain;
      if cfg.LimitPage() {
        instances := cfg.perPage;
      } else {
        if 2 !in classes {
          return Err(MissingPage(2));
        }
        instances := |classes[2]|;
      }
      if cfg.LimitMainPage() {
        instancesMain := cfg.perMainPage;
      } else {
        if 1 !in classes {
          return Err(MissingPage(1));
        }
        instancesMain := |classes[1]|;
      }
      var counts := InstanceLimit.Counts(instances, instancesMain);
      assert InstanceLimit.ReferenceCounts(cfg, classes) == Ok(counts);
      var limited := LimitPass(cfg, subpages);
      if !limited {
        return Err(MainPageTooShort);
      }
      var mismatch := CheckPass(cfg, subpages, counts);
      if mismatch.Some? {
        return Err(mismatch.value);
      }
      r := Ok(counts);
    }

    /** The first loop of the instance limit: every page is cut to its limit
        when long enough; a short main page stops the run, a short subpage is
        only reported. */
    method LimitPass(cfg: Config, subpages: int) returns (ok: bool)
      requires subpages >= 1 && Valid()
      modifies this
      ensures ok <==> !InstanceLimit.FirstShortMain(cfg, subpages, old(classes), maxId)
      ensures ok ==> classes == InstanceLimit.LimitedPages(cfg, subpages, old(classes))
      ensures background == old(background)
    {
      var k := 1;
      while k <= maxId
        invariant 1 <= k <= maxId + 1
        invariant !InstanceLimit.FirstShortMain(cfg, subpages, old(classes), k - 1)
        invariant classes.Keys == old(classes).Keys && background == old(background)
        invariant forall j | j in old(classes) ::
                    classes[j] == if j < k then InstanceLimit.Limited(cfg, subpages, j, old(classes)[j]) else old(classes)[j]
      {
        if k in classes {
          if cfg.main && k % subpages == 1 {
            if cfg.LimitMainPage() {
              if |classes[k]| >= cfg.perMainPage {
                classes := classes[k := classes[k][..cfg.perMainPage]];
              } else {
                assert InstanceLimit.MainTooShort(cfg, subpages, k, old(classes)[k]);
                return false;
              }
            }
          } else if cfg.LimitPage() {
            if |classes[k]| >= cfg.perPage {
              classes := classes[k := classes[k][..cfg.perPage]];
            }
          }
        }
        k := k + 1;
      }
      ok := true;
    }

    /** The second loop: the fault of the first page whose length is not its
        reference count. */
    method CheckPass(cfg: Config, subpages: int, counts: InstanceLimit.Counts) returns (fault: Option<Fault>)
      requires subpages >= 1
      ensures fault == InstanceLimit.FirstMismatch(cfg, subpages, counts, classes, maxId)
    {
      var k := 1;
      while k <= maxId
        invariant 1 <= k <= maxId + 1
        invariant InstanceLimit.FirstMismatch(cfg, subpages, counts, classes, k - 1).None?
      {
        if k in classes {
          if cfg.main && k % subpages == 1 {
            if |classes[k]| != counts.instancesMain {
              InstanceLimit.FirstMismatchStable(cfg, subpages, counts, classes, k, maxId);
              return Some(MainPagesUnequal);
            }
          } else if |classes[k]| != counts.instances {
            InstanceLimit.FirstMismatchStable(cfg, subpages, counts, classes, k, maxId);
            return Some(SubpagesUnequal);
          }
        }
        k := k + 1;
      }
      fault := None;
    }

    /** `outputInput` (easy_WSC.py 321-365): the train and test files of
        folds 1..folds. Every slot 1..sites*subpages the loop writes must be a
        page (the source raises KeyError otherwise). */
    method OutputInput(cfg: Config, subpages: int, pagesPerFold: int, perBgFold: int, sites: int)
      returns (files: seq<FoldSplit.FoldFiles>)
      requires subpages >= 1 && sites >= 0
      requires forall k | 1 <= k <= sites * subpages && !FoldSplit.Skipped(cfg, subpages, k) :: k in classes
      ensures |files| == cfg.folds
      ensures forall f | 1 <= f <= cfg.folds ::
                files[f - 1] == FoldSplit.FoldOutput(cfg, subpages, pagesPerFold, perBgFold, sites, classes, background, f)
    {
      files := [];
      var f := 1;
      while f <= cfg.folds
        invariant 1 <= f <= cfg.folds + 1 && |files| == f - 1
        invariant forall g | 1 <= g < f ::
                    files[g - 1] == FoldSplit.FoldOutput(cfg, subpages, pagesPerFold, perBgFold, sites, classes, background, g)
      {
        var fold := WriteFold(cfg, subpages, pagesPerFold, perBgFold, sites, f);
        files := files + [fold];
        f := f + 1;
      }
    }

    /** One iteration of `outputInput`'s fold loop. */
    method WriteFold(cfg: Config, subpages: int, pagesPerFold: int, perBgFold: int, sites: int, f: int)
      returns (fold: FoldSplit.FoldFiles)
      requires subpages >= 1 && sites >= 0
      requires forall k | 1 <= k <= sites * subpages && !FoldSplit.Skipped(cfg, subpages, k) :: k in classes
      ensures fold == FoldSplit.FoldOutput(cfg, subpages, pagesPerFold, perBgFold, sites, classes, background, f)
    {
      var train: seq<Line>, test: seq<Line> := [], [];
      var site := 0;
      var k := 1;
      while k <= sites * subpages
        invariant 1 <= k <= sites * subpages + 1
        invariant site == FoldSplit.SiteCounter(subpages, k - 1)
        invariant FoldSplit.FoldFiles(train, test) == FoldSplit.PagesPart(cfg, subpages, pagesPerFold, classes, f, k - 1)
      {
        if k % subpages == 1 {
          site := site + 1;
          if !cfg.main {
            k := k + 1;
            continue;
          }
        }
        var lower := f + 1 + (site - 1) * subpages;
        var higher := f + pagesPerFold + (site - 1) * subpages;
        var classNumber := if cfg.simple then site else k;
        if lower <= k <= higher {
          test := AppendRelabelled(test, classes[k], classNumber);
        } else {
          train := AppendRelabelled(train, classes[k], classNumber);
        }
        k := k + 1;
      }
      if cfg.openworld {
        var lower := (f - 1) * perBgFold;
        var higher := f * perBgFold;
        ghost var pages := FoldSplit.FoldFiles(train, test);
        var i := 0;
        while i < |background|
          invariant 0 <= i <= |background|
          invariant var bg := FoldSplit.BackgroundPart(background, perBgFold, f, i);
                    train == pages.train + bg.train && test == pages.test + bg.test
        {
          if lower <= i < higher {
            test := test + [background[i]];
          } else {
            train := train + [background[i]];
          }
          i := i + 1;
        }
      }
      fold := FoldSplit.FoldFiles(train, test);
    }

    /** Quick mode (easy_WSC.py 718-748): every page relabelled into one file,
        keys in ascending order, followed by the background in open world. */
    method QuickRelabel(cfg: Config, subpages: int) returns (out: seq<Line>)
      requires subpages >= 1 && Valid()
      ensures out == QuickMode.QuickFile(cfg, subpages, classes, background, maxId)
    {
      var className := 0;
      var pageCount := 1;
      out := [];
      var k := 1;
      while k <= maxId
        invariant 1 <= k <= maxId + 1
        invariant QuickMode.QuickState(className, pageCount, out) == QuickMode.QuickScan(cfg, subpages, classes, k - 1)
      {
        if k in classes {
          if k % subpages == 1 {
            className := className + 1;
            pageCount := 1;
            if cfg.main {
              pageCount := pageCount - 1;
            }
            out := AppendRelabelled(out, classes[k], className);
          } else if !(cfg.LimitSite() && pageCount >= cfg.perSite) {
            pageCount := pageCount + 1;
            if !cfg.simple {
              className := className + 1;
            }
            out := AppendRelabelled(out, classes[k], className);
          }
        }
        k := k + 1;
      }
      if cfg.openworld {
        out := out + background;
      }
    }

    /** The pages of slots lower..higher in slot order (the list `tmp`). */
    method CollectWindow(lower: int, higher: int) returns (tmp: seq<seq<Line>>)
      requires forall j | lower <= j <= higher :: j in classes
      ensures tmp == Shuffle.WindowPages(classes, lower, higher)
    {
      ghost var window := Shuffle.WindowPages(classes, lower, higher);
      tmp := [];
      var j := lower;
      while j <= higher
        invariant lower <= j <= Max(lower, higher + 1)
        invariant tmp == window[..j - lower]
      {
        tmp := tmp + [classes[j]];
        j := j + 1;
      }
    }

    /** Slots lower..higher take `tmp.pop()` one after another: with `tmp`
        the reversed list `shuffled`, slot j gets `shuffled[j - lower]`. */
    method PopWindow(lower: int, higher: int, tmp0: seq<seq<Line>>, ghost shuffled: seq<seq<Line>>)
      requires forall j | lower <= j <= higher :: j in classes
      requires |shuffled| == Max(0, higher - lower + 1) && tmp0 == Reversed(shuffled)
      modifies this
      ensures background == old(background)
      ensures classes == Shuffle.ReplaceWindow(old(classes), lower, higher, shuffled)
    {
      classes := PoppedInto(classes, lower, higher, tmp0, shuffled);
    }
  }

  /** The loop over `classes.keys()` of ShuffleInstances on the dictionary
      `pages`, whose ids lie in 1..maxId; ids are visited in ascending order. */
  method ShuffledPages(pages: map<int, seq<Line>>, maxId: int, draws: map<int, seq<nat>>) returns (r: map<int, seq<Line>>)
    requires forall k | k in pages :: 1 <= k <= maxId
    requires forall k | k in pages :: k in draws && Shuffle.ValidChoices(draws[k], |pages[k]|)
    ensures r == Shuffle.ShuffledInstances(pages, draws)
  {
    r := pages;
    var k := 1;
    while k <= maxId
      invariant 1 <= k <= Max(1, maxId + 1)
      invariant r.Keys == pages.Keys
      invariant forall j | j in pages :: r[j] == if j < k then Shuffle.Shuffled(pages[j], draws[j]) else pages[j]
    {
      if k in r {
        var page := Shuffle.ShuffleList(r[k], draws[k]);
        r := r[k := page];
      }
      k := k + 1;
    }
  }

  /** The pop loop of PopWindow on the dictionary `pages`. */
  method PoppedInto(pages: map<int, seq<Line>>, lower: int, higher: int, tmp0: seq<seq<Line>>, ghost shuffled: seq<seq<Line>>)
    returns (r: map<int, seq<Line>>)
    requires forall j | lower <= j <= higher :: j in pages
    requires |shuffled| == Max(0, higher - lower + 1) && tmp0 == Reversed(shuffled)
    ensures r == Shuffle.ReplaceWindow(pages, lower, higher, shuffled)
  {
    var tmp := tmp0;
    r := pages;
    var j := lower;
    while j <= higher
      invariant lower <= j <= Max(lower, higher + 1)
      invariant |tmp| == |shuffled| - (j - lower)
      invariant forall i | 0 <= i < |tmp| :: tmp[i] == shuffled[|shuffled| - 1 - i]
      invariant r.Keys == pages.Keys
      invariant forall m | m in pages :: r[m] == if lower <= m < j then shuffled[m - lower] else pages[m]
    {
      ghost var before := r;
      r := r[j := tmp[|tmp| - 1]];
      FillStep(pages, before, r, lower, j, shuffled);
      tmp := tmp[..|tmp| - 1];
      j := j + 1;
    }
    Shuffle.ReplaceWindowFilled(pages, r, lower, higher, j, shuffled);
  }

  /** The inner `for item in classes[k]` loop: each line written with the
      label `classNo` and its text after the first space. */
  method AppendRelabelled(out: seq<Line>, page: seq<Line>, classNo: int) returns (r: seq<Line>)
    ensures r == out + RelabelAll(page, classNo)
  {
    r := out;
    var i := 0;
    while i < |page|
      invariant 0 <= i <= |page|
      invariant r == out + RelabelAll(page[..i], classNo)
    {
      assert RelabelAll(page[..i + 1], classNo) == RelabelAll(page[..i], classNo) + [Line(classNo, page[i].rest)];
      r := r + [Line(classNo, page[i].rest)];
      i := i + 1;
    }
    assert page[..i] == page;
  }
}
