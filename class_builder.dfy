/**
 * The Class Builder: one scan over the scaled merged file that compresses the
 * first-column labels into dense page ids by counting label changes, stores
 * every foreground line under its page id as `<id> <rest>`, and routes the
 * label-0 (background) lines to the background list unless their domain is a
 * foreground site.
 */
module ClassBuilder {
  import opened Common

  /** The label line `i` is compared with: the previous line's, or the initial
      `lastClass = 0` for the first line. */
  function PrevClass(ls: seq<Line>, i: nat): int
    requires i <= |ls|
  {
    if i == 0 then 0 else ls[i - 1].classNo
  }

  /** `className` after scanning `ls`: the number of label changes. */
  function Changes(ls: seq<Line>): nat
  {
    if ls == [] then 0
    else Changes(ls[..|ls| - 1]) + (if ls[|ls| - 1].classNo != PrevClass(ls, |ls| - 1) then 1 else 0)
  }

  /** The page id given to line `i`: `className` right after reading it. */
  function IdOf(ls: seq<Line>, i: nat): nat
    requires i < |ls|
  {
    Changes(ls[..i + 1])
  }

  /** Number of background (label-0) lines, i.e. domain-list entries consumed. */
  function Zeros(ls: seq<Line>): nat
  {
    if ls == [] then 0
    else Zeros(ls[..|ls| - 1]) + (if ls[|ls| - 1].classNo == 0 then 1 else 0)
  }

  /** The instances stored under page id `k`, in scan order. */
  function Page(ls: seq<Line>, k: int): seq<Line>
  {
    if ls == [] then []
    else
      var last := ls[|ls| - 1];
      Page(ls[..|ls| - 1], k)
      + (if last.classNo != 0 && Changes(ls) == k then [Line(k, last.rest)] else [])
  }

  /** The background list: each label-0 line consumes the next domain entry
      and is kept iff that domain is not a foreground site. */
  function Background(ls: seq<Line>, domains: seq<string>, foreground: seq<string>): seq<Line>
  {
    if ls == [] then []
    else
      var init, last := ls[..|ls| - 1], ls[|ls| - 1];
      Background(init, domains, foreground)
      + (if last.classNo == 0 && Zeros(init) < |domains| && domains[Zeros(init)] !in foreground
         then [last] else [])
  }

  /** The builder's outcome: the page dictionary, the background list, the
      raw `className` (the largest page id), and the adjusted page count. */
  datatype Built = Built(classes: map<int, seq<Line>>, background: seq<Line>, maxId: nat, classCount: int)

  /** The fatal case of the scan: a background line in closed world, or more
      background lines than domain entries in open world. */
  predicate ScanFails(cfg: Config, ls: seq<Line>, domains: seq<string>)
  {
    if cfg.openworld then Zeros(ls) > |domains| else Zeros(ls) > 0
  }

  /** Scanning one more line never lowers the counters. */
  lemma {:induction false} PrefixMonotone(ls: seq<Line>, i: nat)
    requires i <= |ls|
    ensures Changes(ls[..i]) <= Changes(ls) && Zeros(ls[..i]) <= Zeros(ls)
    decreases |ls| - i
  {
    if i < |ls| {
      PrefixMonotone(ls, i + 1);
      assert ls[..i + 1][..i] == ls[..i];
    } else {
      assert ls[..i] == ls;
    }
  }

  /** A foreground line always gets a page id of at least 1. */
  lemma {:induction false} NonzeroLastHasId(ls: seq<Line>)
    requires ls != [] && ls[|ls| - 1].classNo != 0
    ensures Changes(ls) >= 1
  {
    var init := ls[..|ls| - 1];
    if ls[|ls| - 1].classNo == PrevClass(ls, |ls| - 1) {
      assert |ls| >= 2 && init[|init| - 1] == ls[|ls| - 2];
      NonzeroLastHasId(init);
    }
  }

  /** Page ids lie in 1..className: the dictionary is keyed densely from 1. */
  lemma {:induction false} PageIdRange(ls: seq<Line>, k: int)
    requires Page(ls, k) != []
    ensures 1 <= k <= Changes(ls)
  {
    var init := ls[..|ls| - 1];
    if Page(init, k) != [] {
      PageIdRange(init, k);
    } else {
      NonzeroLastHasId(ls);
    }
  }

  /** What reading line `i` adds to every quantity of the scan. */
  lemma PrefixStep(ls: seq<Line>, i: nat)
    requires i < |ls|
    ensures Changes(ls[..i + 1]) == Changes(ls[..i]) + (if ls[i].classNo != PrevClass(ls, i) then 1 else 0)
    ensures Zeros(ls[..i + 1]) == Zeros(ls[..i]) + (if ls[i].classNo == 0 then 1 else 0)
    ensures forall k :: Page(ls[..i + 1], k)
                        == Page(ls[..i], k)
                           + (if ls[i].classNo != 0 && Changes(ls[..i + 1]) == k then [Line(k, ls[i].rest)] else [])
  {
    var p := ls[..i + 1];
    assert p[..i] == ls[..i] && p[i] == ls[i];
    assert PrevClass(p, i) == PrevClass(ls, i);
  }

  /** Storing line `i` under its page id (or skipping a background line)
      keeps the dictionary equal to the pages of the lines read so far. */
  lemma StorePreservesPages(ls: seq<Line>, i: nat, before: map<int, seq<Line>>, after: map<int, seq<Line>>)
    requires i < |ls|
    requires forall k :: k in before <==> Page(ls[..i], k) != []
    requires forall k | k in before :: before[k] == Page(ls[..i], k)
    requires ls[i].classNo == 0 ==> after == before
    requires ls[i].classNo != 0 ==>
               var id := Changes(ls[..i + 1]);
               after == before[id := if id in before then before[id] + [Line(id, ls[i].rest)] else [Line(id, ls[i].rest)]]
    ensures forall k :: k in after <==> Page(ls[..i + 1], k) != []
    ensures forall k | k in after :: after[k] == Page(ls[..i + 1], k)
  {
    PrefixStep(ls, i);
  }

  /** What reading line `i` adds to the background list. */
  lemma BackgroundStep(ls: seq<Line>, i: nat, domains: seq<string>, foreground: seq<string>)
    requires i < |ls|
    ensures Background(ls[..i + 1], domains, foreground)
            == Background(ls[..i], domains, foreground)
               + (if ls[i].classNo == 0 && Zeros(ls[..i]) < |domains| && domains[Zeros(ls[..i])] !in foreground
                  then [ls[i]] else [])
  {
    assert ls[..i + 1][..i] == ls[..i];
  }

  /** `className` rises by exactly one whenever the first column differs from
      the previous line's (the first line is compared with 0), and otherwise
      stays: each line's page id is the previous line's plus that step. */
  lemma IdStep(ls: seq<Line>, i: nat)
    requires i < |ls|
    ensures IdOf(ls, i) == (if i == 0 then 0 else IdOf(ls, i - 1))
                           + (if ls[i].classNo != PrevClass(ls, i) then 1 else 0)
  {
    PrefixStep(ls, i);
  }

  /** Page ids never decrease along the file, and two lines share an id iff
      no label change happens between them. */
  lemma {:induction false} SameIdIffNoChange(ls: seq<Line>, i: nat, j: nat)
    requires i <= j < |ls|
    ensures IdOf(ls, i) <= IdOf(ls, j)
    ensures IdOf(ls, i) == IdOf(ls, j)
            <==> forall m | i < m <= j :: ls[m].classNo == ls[m - 1].classNo
    decreases j - i
  {
    if i < j {
      SameIdIffNoChange(ls, i, j - 1);
      IdStep(ls, j);
    }
  }

  /** No label change between i and j means equal labels at i and j. */
  lemma {:induction false} NoChangeSameLabel(ls: seq<Line>, i: nat, j: nat)
    requires i <= j < |ls|
    requires forall m | i < m <= j :: ls[m].classNo == ls[m - 1].classNo
    ensures ls[i].classNo == ls[j].classNo
    decreases j - i
  {
    if i < j {
      NoChangeSameLabel(ls, i, j - 1);
    }
  }

  /** The input ordering the scan relies on: the lines of one label are
      contiguous. */
  ghost predicate Grouped(ls: seq<Line>)
  {
    forall a, m, b | 0 <= a < m < b < |ls| && ls[a].classNo == ls[b].classNo ::
      ls[m].classNo == ls[a].classNo
  }

  /** Lines in one page share a label; when every label is contiguous,
      lines with the same label also share a page, so the ids number the
      distinct labels in encounter order. */
  lemma GroupedIdsMatchLabels(ls: seq<Line>, i: nat, j: nat)
    requires i <= j < |ls|
    ensures IdOf(ls, i) == IdOf(ls, j) ==> ls[i].classNo == ls[j].classNo
    ensures Grouped(ls) && ls[i].classNo == ls[j].classNo ==> IdOf(ls, i) == IdOf(ls, j)
  {
    SameIdIffNoChange(ls, i, j);
    if IdOf(ls, i) == IdOf(ls, j) {
      NoChangeSameLabel(ls, i, j);
    }
    if Grouped(ls) && ls[i].classNo == ls[j].classNo {
      forall m | i < m <= j
        ensures ls[m].classNo == ls[m - 1].classNo
      {
        if m < j {
          assert ls[m].classNo == ls[i].classNo;
        }
        if m - 1 > i {
          assert ls[m - 1].classNo == ls[i].classNo;
        }
      }
    }
  }

  /** Total number of instances stored under ids 1..n. */
  function PageSizes(ls: seq<Line>, n: nat): nat
  {
    if n == 0 then 0 else PageSizes(ls, n - 1) + |Page(ls, n)|
  }

  lemma {:induction false} PageSizesOfInit(ls: seq<Line>, n: nat)
    requires ls != []
    ensures PageSizes(ls, n)
            == PageSizes(ls[..|ls| - 1], n)
               + (if ls[|ls| - 1].classNo != 0 && 1 <= Changes(ls) <= n then 1 else 0)
  {
    if n > 0 {
      PageSizesOfInit(ls, n - 1);
    }
  }

  lemma {:induction false} PageSizesBeyond(ls: seq<Line>, n: nat)
    requires n >= Changes(ls)
    ensures PageSizes(ls, n) == PageSizes(ls, Changes(ls))
  {
    if n > Changes(ls) {
      PageSizesBeyond(ls, n - 1);
      if Page(ls, n) != [] {
        PageIdRange(ls, n);
      }
    }
  }

  /** Every foreground line is stored under exactly one page id, and every
      other line is a background line: the pages 1..className together hold
      all lines but the label-0 ones. */
  lemma {:induction false} ForegroundLinesPaged(ls: seq<Line>)
    ensures PageSizes(ls, Changes(ls)) + Zeros(ls) == |ls|
  {
    if ls != [] {
      var init := ls[..|ls| - 1];
      ForegroundLinesPaged(init);
      PrefixStep(ls, |ls| - 1);
      assert ls[..|ls|] == ls;
      PageSizesBeyond(init, Changes(ls));
      PageSizesOfInit(ls, Changes(ls));
      if ls[|ls| - 1].classNo != 0 {
        NonzeroLastHasId(ls);
      }
    }
  }

  /** Every background line kept has label 0, and at most one is kept per
      label-0 line. */
  lemma {:induction false} BackgroundIsLabelZero(ls: seq<Line>, domains: seq<string>, foreground: seq<string>)
    ensures forall l | l in Background(ls, domains, foreground) :: l.classNo == 0
    ensures |Background(ls, domains, foreground)| <= Zeros(ls)
  {
    if ls != [] {
      BackgroundIsLabelZero(ls[..|ls| - 1], domains, foreground);
    }
  }

  /** The label-0 lines of `ls`, in order. */
  function ZeroLines(ls: seq<Line>): seq<Line>
  {
    if ls == [] then []
    else ZeroLines(ls[..|ls| - 1]) + (if ls[|ls| - 1].classNo == 0 then [ls[|ls| - 1]] else [])
  }

  /** When no listed domain is a foreground site, nothing is filtered: the
      background list is every label-0 line, in file order. */
  lemma {:induction false} BackgroundWithoutCollisions(ls: seq<Line>, domains: seq<string>, foreground: seq<string>)
    requires Zeros(ls) <= |domains|
    requires forall d | d in domains :: d !in foreground
    ensures Background(ls, domains, foreground) == ZeroLines(ls)
  {
    if ls != [] {
      var init := ls[..|ls| - 1];
      PrefixMonotone(ls, |ls| - 1);
      BackgroundWithoutCollisions(init, domains, foreground);
    }
  }

  /** The scan of easy_WSC.py 551-594 (the domain list is read already
      reduced to domain names; `sites` is the number of sites of the run). */
  method BuildClasses(cfg: Config, scaled: seq<Line>, domains: seq<string>, foreground: seq<string>, sites: int)
    returns (r: Result<Built>)
    ensures r.Err? <==> ScanFails(cfg, scaled, domains)
    ensures r.Err? ==> r.fault == if cfg.openworld then DomainListExhausted else ZeroLabelInClosedWorld
    ensures r.Ok? ==> r.value.maxId == Changes(scaled)
    ensures r.Ok? ==> forall k :: k in r.value.classes <==> Page(scaled, k) != []
    ensures r.Ok? ==> forall k | k in r.value.classes :: r.value.classes[k] == Page(scaled, k) && 1 <= k <= r.value.maxId
    ensures r.Ok? ==> r.value.background == Background(scaled, domains, foreground)
    ensures r.Ok? ==> r.value.classCount
                      == Changes(scaled) - (if cfg.openworld then 1 else 0) - (if cfg.main then sites else 0)
  {
    var classes: map<int, seq<Line>> := map[];
    var background: seq<Line> := [];
    var className: nat := 0;
    var lastClass := 0;
    var next := 0;  // position in the domain list
    var i := 0;
    while i < |scaled|
      invariant 0 <= i <= |scaled|
      invariant className == Changes(scaled[..i]) && lastClass == PrevClass(scaled, i)
      invariant next == Zeros(scaled[..i])
      invariant if cfg.openworld then next <= |domains| else next == 0
      invariant forall k :: k in classes <==> Page(scaled[..i], k) != []
      invariant forall k | k in classes :: classes[k] == Page(scaled[..i], k)
      invariant background == Background(scaled[..i], domains, foreground)
    {
      var line := scaled[i];
      ghost var pages := classes;
      PrefixStep(scaled, i);
      BackgroundStep(scaled, i, domains, foreground);
      var currentClass := line.classNo;
      if currentClass != lastClass {
        className := className + 1;
        lastClass := currentClass;
      }
      assert className == Changes(scaled[..i + 1]);
      if currentClass == 0 {
        if cfg.openworld {
          if next == |domains| {
            // the domain iterator is exhausted: an uncaught StopIteration
            PrefixMonotone(scaled, i + 1);
            return Err(DomainListExhausted);
          }
          if domains[next] !in foreground {
            background := background + [line];
          }
          next := next + 1;
        } else {
          PrefixMonotone(scaled, i + 1);
          return Err(ZeroLabelInClosedWorld);
        }
      } else {
        if className in classes {
          classes := classes[className := classes[className] + [Line(className, line.rest)]];
        } else {
          classes := classes[className := [Line(className, line.rest)]];
        }
      }
      StorePreservesPages(scaled, i, pages, classes);
      i := i + 1;
    }
    assert scaled[..i] == scaled;
    forall k | k in classes
      ensures 1 <= k <= className
    {
      PageIdRange(scaled, k);
    }
    var count: int := className;
    if cfg.openworld {
      count := count - 1;
    }
    if cfg.main {
      count := count - sites;
    }
    r := Ok(Built(classes, background, className, count));
  }
}
