/**
 * Instance limiting and the equal-instances check (easy_WSC.py 664-706).
 * The reference counts come from page 2 (subpages) and page 1 (main page)
 * unless a limit is set; pages are cut to the limits, and then every page
 * must hold exactly its reference count. Keys are visited in ascending
 * order, so the first mismatching page decides which error is reported.
 */
module InstanceLimit {
  import opened Common

  /** Whether slot k holds a site's main page. */
  predicate IsMainSlot(cfg: Config, subpages: int, k: int)
    requires subpages >= 1
  {
    cfg.main && k % subpages == 1
  }

  /** `instances` is the per-subpage count, `instancesMain` the per-main-page
      count; they are also the values `perPage` and `perMainPage` take. */
  datatype Counts = Counts(instances: int, instancesMain: int)

  /** easy_WSC.py 665-674. Without a limit the count is read from page 2
      (subpages) or page 1 (main pages); a missing page is a KeyError. */
  function ReferenceCounts(cfg: Config, classes: map<int, seq<Line>>): (r: Result<Counts>)
    ensures r.Err? <==> (!cfg.LimitPage() && 2 !in classes) || (!cfg.LimitMainPage() && 1 !in classes)
    ensures r.Err? ==> r.fault == MissingPage(if !cfg.LimitPage() && 2 !in classes then 2 else 1)
    ensures r.Ok? ==> r.value.instances == if cfg.LimitPage() then cfg.perPage else |classes[2]|
    ensures r.Ok? ==> r.value.instancesMain == if cfg.LimitMainPage() then cfg.perMainPage else |classes[1]|
  {
    if !cfg.LimitPage() && 2 !in classes then Err(MissingPage(2))
    else if !cfg.LimitMainPage() && 1 !in classes then Err(MissingPage(1))
    else
      Ok(Counts(if cfg.LimitPage() then cfg.perPage else |classes[2]|,
                if cfg.LimitMainPage() then cfg.perMainPage else |classes[1]|))
  }

  /** A main page shorter than the main-page limit stops the run. */
  predicate MainTooShort(cfg: Config, subpages: int, k: int, page: seq<Line>)
    requires subpages >= 1
  {
    IsMainSlot(cfg, subpages, k) && cfg.LimitMainPage() && |page| < cfg.perMainPage
  }

  /** Page k after the first loop: cut to its limit when it has enough
      instances; a short subpage is only reported and kept whole. */
  function Limited(cfg: Config, subpages: int, k: int, page: seq<Line>): (r: seq<Line>)
    requires subpages >= 1
    ensures r <= page
  {
    if IsMainSlot(cfg, subpages, k) then
      if cfg.LimitMainPage() && |page| >= cfg.perMainPage then page[..cfg.perMainPage] else page
    else if cfg.LimitPage() && |page| >= cfg.perPage then page[..cfg.perPage]
    else page
  }

  /** The count page k must have in the second loop. */
  function Expected(cfg: Config, subpages: int, counts: Counts, k: int): int
    requires subpages >= 1
  {
    if IsMainSlot(cfg, subpages, k) then counts.instancesMain else counts.instances
  }

  function MismatchFault(cfg: Config, subpages: int, k: int): Fault
    requires subpages >= 1
  {
    if IsMainSlot(cfg, subpages, k) then MainPagesUnequal else SubpagesUnequal
  }

  /** The first short main page among slots 1..n, as the first loop meets it. */
  function FirstShortMain(cfg: Config, subpages: int, classes: map<int, seq<Line>>, n: int): (r: bool)
    requires subpages >= 1
    ensures r <==> exists k | 1 <= k <= n && k in classes :: MainTooShort(cfg, subpages, k, classes[k])
    decreases n
  {
    if n <= 0 then false
    else FirstShortMain(cfg, subpages, classes, n - 1)
         || (n in classes && MainTooShort(cfg, subpages, n, classes[n]))
  }

  /** The fault of the first page among slots 1..n whose length differs from
      its expected count, if any (the second loop). */
  function FirstMismatch(cfg: Config, subpages: int, counts: Counts, pages: map<int, seq<Line>>, n: int): Option<Fault>
    requires subpages >= 1
    decreases n
  {
    if n <= 0 then None
    else
      match FirstMismatch(cfg, subpages, counts, pages, n - 1)
      case Some(f) => Some(f)
      case None =>
        if n in pages && |pages[n]| != Expected(cfg, subpages, counts, n)
        then Some(MismatchFault(cfg, subpages, n)) else None
  }

  /** The dictionary after the first loop. */
  function LimitedPages(cfg: Config, subpages: int, classes: map<int, seq<Line>>): (r: map<int, seq<Line>>)
    requires subpages >= 1
    ensures r.Keys == classes.Keys
  {
    map k | k in classes :: Limited(cfg, subpages, k, classes[k])
  }

  /** Both loops over a dictionary whose keys lie in 1..maxId: the pages
      after limiting and the counts, or the error that stops the run. */
  function LimitAndCheck(cfg: Config, subpages: int, classes: map<int, seq<Line>>, maxId: int)
    : Result<(map<int, seq<Line>>, Counts)>
    requires subpages >= 1
  {
    match ReferenceCounts(cfg, classes)
    case Err(f) => Err(f)
    case Ok(counts) =>
      if FirstShortMain(cfg, subpages, classes, maxId) then Err(MainPageTooShort)
      else
        var pages := LimitedPages(cfg, subpages, classes);
        match FirstMismatch(cfg, subpages, counts, pages, maxId)
        case Some(f) => Err(f)
        case None => Ok((pages, counts))
  }

  /** The second loop passes exactly when every page has its expected count;
      the fault it reports belongs to the first page that does not. */
  lemma {:induction false} FirstMismatchIff(cfg: Config, subpages: int, counts: Counts, pages: map<int, seq<Line>>, n: int)
    requires subpages >= 1
    ensures FirstMismatch(cfg, subpages, counts, pages, n).None?
            <==> forall k | 1 <= k <= n && k in pages :: |pages[k]| == Expected(cfg, subpages, counts, k)
    ensures FirstMismatch(cfg, subpages, counts, pages, n).Some? ==>
              exists k | 1 <= k <= n && k in pages ::
                |pages[k]| != Expected(cfg, subpages, counts, k)
                && FirstMismatch(cfg, subpages, counts, pages, n).value == MismatchFault(cfg, subpages, k)
                && forall j | 1 <= j < k && j in pages :: |pages[j]| == Expected(cfg, subpages, counts, j)
    decreases n
  {
    if n > 0 {
      FirstMismatchIff(cfg, subpages, counts, pages, n - 1);
    }
  }

  /** Once a mismatch is found, later pages do not change which one is
      reported: the second loop stops at the first. */
  lemma {:induction false} FirstMismatchStable(cfg: Config, subpages: int, counts: Counts, pages: map<int, seq<Line>>, k: int, n: int)
    requires subpages >= 1 && k <= n
    requires FirstMismatch(cfg, subpages, counts, pages, k).Some?
    ensures FirstMismatch(cfg, subpages, counts, pages, n) == FirstMismatch(cfg, subpages, counts, pages, k)
    decreases n - k
  {
    if k < n {
      FirstMismatchStable(cfg, subpages, counts, pages, k, n - 1);
    }
  }

  /** After the check passes, every subpage holds `instances` lines and every
      main page `instancesMain`; each page is a prefix of its original. */
  lemma CheckedPagesEqual(cfg: Config, subpages: int, classes: map<int, seq<Line>>, maxId: int)
    requires subpages >= 1
    requires forall k | k in classes :: 1 <= k <= maxId
    requires LimitAndCheck(cfg, subpages, classes, maxId).Ok?
    ensures var (pages, counts) := LimitAndCheck(cfg, subpages, classes, maxId).value;
            pages.Keys == classes.Keys
            && (forall k | k in pages :: pages[k] <= classes[k])
            && (forall k | k in pages && IsMainSlot(cfg, subpages, k) :: |pages[k]| == counts.instancesMain)
            && (forall k | k in pages && !IsMainSlot(cfg, subpages, k) :: |pages[k]| == counts.instances)
  {
    var counts := ReferenceCounts(cfg, classes).value;
    FirstMismatchIff(cfg, subpages, counts, LimitedPages(cfg, subpages, classes), maxId);
  }

  /** With a subpage limit, a subpage that has fewer instances than the limit
      is only reported by the first loop, but the run still stops: the
      second loop finds it one instance short of `perPage`. */
  lemma ShortSubpageIsFatal(cfg: Config, subpages: int, classes: map<int, seq<Line>>, maxId: int, k: int)
    requires subpages >= 1 && cfg.LimitPage()
    requires k in classes && 1 <= k <= maxId && !IsMainSlot(cfg, subpages, k)
    requires |classes[k]| < cfg.perPage
    ensures LimitAndCheck(cfg, subpages, classes, maxId).Err?
  {
    if ReferenceCounts(cfg, classes).Ok? && !FirstShortMain(cfg, subpages, classes, maxId) {
      var counts := ReferenceCounts(cfg, classes).value;
      var pages := LimitedPages(cfg, subpages, classes);
      assert |pages[k]| != Expected(cfg, subpages, counts, k);
      FirstMismatchIff(cfg, subpages, counts, pages, maxId);
    }
  }

  /** With a main-page limit, a main page below it stops the run. */
  lemma ShortMainPageIsFatal(cfg: Config, subpages: int, classes: map<int, seq<Line>>, maxId: int, k: int)
    requires subpages >= 1 && cfg.LimitMainPage() && ReferenceCounts(cfg, classes).Ok?
    requires k in classes && 1 <= k <= maxId && IsMainSlot(cfg, subpages, k)
    requires |classes[k]| < cfg.perMainPage
    ensures LimitAndCheck(cfg, subpages, classes, maxId) == Err(MainPageTooShort)
  {
    assert MainTooShort(cfg, subpages, k, classes[k]);
  }
}
