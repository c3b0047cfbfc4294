/**
 * The fold-count validation after the class scan and the background
 * trimming: how many pages a site has, how many of them each fold tests, and
 * how large the background pool and each fold's share of it are.
 */
module FoldPlan {
  import opened Common
  import Arith

  /** `subpages` counts the main page when main pages are used;
      `pagesPerFold` is the size of one fold's test window per site;
      `perSite` is the number of subpages per site a run uses. */
  datatype Plan = Plan(subpages: int, pagesPerFold: int, perSite: int)

  /** easy_WSC.py 601-616. The source tests `(className/sites) % folds == 0`
      with true division; that holds exactly when `sites * folds` divides
      `className`, which is the condition written here. */
  function PlanFolds(cfg: Config, classCount: int, sites: Pos): (r: Result<Plan>)
    ensures r.Ok? <==> classCount % (sites * cfg.folds) == 0
                       && (!cfg.LimitSite() || cfg.perSite % cfg.folds == 0)
    ensures r.Err? ==> r.fault == if classCount % (sites * cfg.folds) != 0
                                  then PagesNotDivisible else LimitedPagesNotDivisible
    ensures r.Ok? ==> (r.value.subpages - (if cfg.main then 1 else 0)) * sites == classCount
    ensures r.Ok? ==> r.value.perSite == if cfg.LimitSite() then cfg.perSite
                                         else r.value.subpages - (if cfg.main then 1 else 0)
    ensures r.Ok? ==> r.value.pagesPerFold * cfg.folds == r.value.perSite
  {
    if classCount % (sites * cfg.folds) == 0 then
      Arith.DivisibleByProduct(classCount, sites, cfg.folds);
      var subpages := classCount / sites;
      var mainSlot := if cfg.main then 1 else 0;
      if cfg.LimitSite() then
        if cfg.perSite % cfg.folds != 0 then Err(LimitedPagesNotDivisible)
        else Ok(Plan(subpages + mainSlot, cfg.perSite / cfg.folds, cfg.perSite))
      else Ok(Plan(subpages + mainSlot, subpages / cfg.folds, subpages))
    else Err(PagesNotDivisible)
  }

  /** Two sites of one main page and four subpages each cannot be split into
      three folds: the run stops with the fold-partition error. */
  lemma FiveSlotSitesInThreeFolds(cfg: Config)
    requires cfg.main && cfg.folds == 3 && !cfg.LimitSite()
    ensures PlanFolds(cfg, 2 * 5 - 2, 2) == Err(PagesNotDivisible)
  {
  }

  /** Pages per site divisible by the fold count is exactly the success
      condition when no subpage limit is set. */
  lemma {:induction false} PlanSucceedsIffSitesDivide(cfg: Config, classCount: int, sites: Pos)
    requires !cfg.LimitSite()
    ensures PlanFolds(cfg, classCount, sites).Ok?
            <==> classCount % sites == 0 && (classCount / sites) % cfg.folds == 0
  {
    if classCount % (sites * cfg.folds) == 0 {
      Arith.DivisibleByProduct(classCount, sites, cfg.folds);
    } else if classCount % sites == 0 && (classCount / sites) % cfg.folds == 0 {
      Arith.ProductDivides(classCount, sites, cfg.folds);
    }
  }

  /** `bgSize` is the pool size used; `perBgFold` the size of one fold's
      test share of it. */
  datatype BgPlan = BgPlan(bgSize: nat, perBgFold: nat)

  /** easy_WSC.py 644-662, for `available` background lines. */
  function PlanBackground(cfg: Config, available: nat): (r: Result<BgPlan>)
    requires cfg.openworld
    ensures !cfg.LimitBackground() ==>
              r.Ok? && r.value.bgSize % cfg.folds == 0 && r.value.bgSize <= available < r.value.bgSize + cfg.folds
    ensures cfg.LimitBackground() ==> (r.Ok? <==> cfg.bgSize <= available && cfg.bgSize % cfg.folds == 0)
    ensures cfg.LimitBackground() && r.Ok? ==> r.value.bgSize == cfg.bgSize
    ensures r.Ok? ==> r.value.perBgFold * cfg.folds == r.value.bgSize
    ensures r.Err? ==> r.fault == if cfg.bgSize <= available then BackgroundNotDivisible
                                  else BackgroundTooSmall(available)
  {
    Arith.RoundDown(available, cfg.folds);
    var size: nat :=
      if cfg.LimitBackground() then cfg.bgSize
      else if available % cfg.folds != 0 then available / cfg.folds * cfg.folds
      else available;
    if available >= size then
      if size % cfg.folds == 0 then
        Arith.DivModUnique(size, cfg.folds, size / cfg.folds, 0);
        Ok(BgPlan(size, size / cfg.folds))
      else Err(BackgroundNotDivisible)
    else Err(BackgroundTooSmall(available))
  }

  /** 97 background lines over ten folds: trimmed to 90, nine per fold. */
  lemma NinetySevenOverTenFolds(cfg: Config)
    requires cfg.openworld && !cfg.LimitBackground() && cfg.folds == 10
    ensures PlanBackground(cfg, 97) == Ok(BgPlan(90, 9))
  {
  }
}
