/**
 * Shuffling. Python's `random.shuffle` walks i from the last position down
 * to 1 and swaps x[i] with x[j] for a random j <= i; the random draws are
 * taken here as a parameter `choices` (choices[i] is the j drawn at step i).
 * The subpage shuffle permutes, per site, the page slots after the main
 * page (easy_WSC.py 625-641).
 */
module Shuffle {
  import opened Common
  import Arith

  /** Draws that `random.shuffle` could make for a list of length n. */
  predicate ValidChoices(choices: seq<nat>, n: nat)
  {
    |choices| == n && forall i | 0 <= i < n :: choices[i] <= i
  }

  function Swap<T>(s: seq<T>, i: nat, j: nat): seq<T>
    requires i < |s| && j < |s|
  {
    s[i := s[j]][j := s[i]]
  }

  /** The swaps for positions i, i-1, ..., 1. */
  function ShuffleDown<T>(s: seq<T>, choices: seq<nat>, i: nat): (r: seq<T>)
    requires ValidChoices(choices, |s|) && i < |s|
    ensures |r| == |s|
    decreases i
  {
    if i == 0 then s else ShuffleDown(Swap(s, i, choices[i]), choices, i - 1)
  }

  /** The list after `random.shuffle` made the draws `choices`. */
  function Shuffled<T>(s: seq<T>, choices: seq<nat>): (r: seq<T>)
    requires ValidChoices(choices, |s|)
    ensures |r| == |s|
  {
    if |s| == 0 then s else ShuffleDown(s, choices, |s| - 1)
  }

  lemma {:induction false} ShuffleDownPermutes<T>(s: seq<T>, choices: seq<nat>, i: nat)
    requires ValidChoices(choices, |s|) && i < |s|
    ensures multiset(ShuffleDown(s, choices, i)) == multiset(s)
    decreases i
  {
    if i > 0 {
      var t := Swap(s, i, choices[i]);
      SwapPermutes(s, i, choices[i]);
      ShuffleDownPermutes(t, choices, i - 1);
    }
  }

  /** A swap keeps the multiset of the elements. */
  lemma SwapPermutes<T>(s: seq<T>, i: nat, j: nat)
    requires i < |s| && j < |s|
    ensures multiset(Swap(s, i, j)) == multiset(s)
  {
    var u := s[i := s[j]];
    assert multiset(u) == multiset(s) - multiset{s[i]} + multiset{s[j]};
    assert u[j] == s[j];
    assert multiset(u[j := s[i]]) == multiset(u) - multiset{s[j]} + multiset{s[i]};
  }

  /** Shuffling keeps the length and the multiset of the elements. */
  lemma ShufflePermutes<T>(s: seq<T>, choices: seq<nat>)
    requires ValidChoices(choices, |s|)
    ensures multiset(Shuffled(s, choices)) == multiset(s)
  {
    if |s| > 0 {
      ShuffleDownPermutes(s, choices, |s| - 1);
    }
  }

  /** `random.shuffle` on a list value: the draws are made from the last
      position down to position 1. */
  method ShuffleList<T>(s: seq<T>, choices: seq<nat>) returns (r: seq<T>)
    requires ValidChoices(choices, |s|)
    ensures r == Shuffled(s, choices)
    ensures multiset(r) == multiset(s)
  {
    ShufflePermutes(s, choices);
    r := s;
    if |s| == 0 {
      return;
    }
    var i := |s| - 1;
    while i > 0
      invariant 0 <= i < |s| && |r| == |s|
      invariant ShuffleDown(r, choices, i) == Shuffled(s, choices)
    {
      r := Swap(r, i, choices[i]);
      i := i - 1;
    }
  }

  /** Every page after `random.shuffle(classes[k])` with the draws
      `draws[k]` (easy_WSC.py 620-622). */
  function ShuffledInstances(classes: map<int, seq<Line>>, draws: map<int, seq<nat>>): (r: map<int, seq<Line>>)
    requires forall k | k in classes :: k in draws && ValidChoices(draws[k], |classes[k]|)
    ensures r.Keys == classes.Keys
  {
    map k | k in classes :: Shuffled(classes[k], draws[k])
  }

  /** Shuffling instances keeps every page's instances, as a multiset. */
  lemma ShuffledInstancesPermute(classes: map<int, seq<Line>>, draws: map<int, seq<nat>>, k: int)
    requires forall k | k in classes :: k in draws && ValidChoices(draws[k], |classes[k]|)
    requires k in classes
    ensures multiset(ShuffledInstances(classes, draws)[k]) == multiset(classes[k])
  {
    ShufflePermutes(classes[k], draws[k]);
  }

  /** First page slot of site `s` that is shuffled (`lower`): the slot after
      the main page when main pages are used. Site s's first slot,
      (s - 1) * subpages + 1, is written in terms of s * subpages so that the
      window's width is linear in it. */
  function WindowLo(cfg: Config, subpages: int, s: int): int
  {
    s * subpages - subpages + 1 + (if cfg.main then 1 else 0)
  }

  /** Last page slot of site `s` (`higher`). */
  function WindowHi(subpages: int, s: int): int
  {
    s * subpages
  }

  /** Number of shuffled slots of one site. */
  function Width(cfg: Config, subpages: int): nat
  {
    Max(0, subpages - (if cfg.main then 1 else 0))
  }

  predicate InWindow(cfg: Config, subpages: int, s: int, k: int)
  {
    WindowLo(cfg, subpages, s) <= k <= WindowHi(subpages, s)
  }

  /** Each site's window has `Width` slots. */
  lemma WindowWidth(cfg: Config, subpages: int, s: int)
    ensures Max(0, WindowHi(subpages, s) - WindowLo(cfg, subpages, s) + 1) == Width(cfg, subpages)
  {
    assert (s - 1) * subpages == s * subpages - subpages;
  }

  /** The site whose block of `subpages` slots holds slot k. */
  function SlotSite(subpages: int, k: int): int
    requires subpages >= 1
  {
    (k - 1) / subpages + 1
  }

  /** Slot k lies in the block of the site `SlotSite` names. */
  lemma SlotInOwnBlock(subpages: int, k: int)
    requires subpages >= 1
    ensures (SlotSite(subpages, k) - 1) * subpages + 1 <= k <= SlotSite(subpages, k) * subpages
  {
    assert k - 1 == ((k - 1) / subpages) * subpages + (k - 1) % subpages;
  }

  /** A slot in site s's window belongs to site s: windows of different sites
      are disjoint. */
  lemma WindowSite(cfg: Config, subpages: int, s: int, k: int)
    requires subpages >= 1 && InWindow(cfg, subpages, s, k)
    ensures SlotSite(subpages, k) == s
  {
    Arith.DivModUnique(k - 1, subpages, s - 1, k - 1 - (s - 1) * subpages);
  }

  /** Whether the shuffle of sites 1..n moves slot k. */
  predicate Shuffles(cfg: Config, subpages: int, n: int, k: int)
    requires subpages >= 1
  {
    1 <= SlotSite(subpages, k) <= n && InWindow(cfg, subpages, SlotSite(subpages, k), k)
  }

  /** The pages in slots lo..hi, in slot order (the list `tmp`). */
  function WindowPages(classes: map<int, seq<Line>>, lo: int, hi: int): (r: seq<seq<Line>>)
    requires forall j | lo <= j <= hi :: j in classes
    ensures |r| == Max(0, hi - lo + 1)
    ensures forall j | lo <= j <= hi :: r[j - lo] == classes[j]
  {
    seq(Max(0, hi - lo + 1), i requires 0 <= i < Max(0, hi - lo + 1) => classes[lo + i])
  }

  /** The pages with the slots lo..hi given, in order, the entries of `w`. */
  function ReplaceWindow(pages: map<int, seq<Line>>, lo: int, hi: int, w: seq<seq<Line>>): (r: map<int, seq<Line>>)
    requires |w| == Max(0, hi - lo + 1)
    ensures r.Keys == pages.Keys
  {
    map m | m in pages :: if lo <= m <= hi then w[m - lo] else pages[m]
  }

  /** What ReplaceWindow does to slot m. */
  lemma ReplaceWindowAt(pages: map<int, seq<Line>>, lo: int, hi: int, w: seq<seq<Line>>, m: int)
    requires |w| == Max(0, hi - lo + 1) && m in pages
    ensures ReplaceWindow(pages, lo, hi, w)[m] == if lo <= m <= hi then w[m - lo] else pages[m]
  {
  }

  /** A map whose slots lo..j-1 hold the list `w` in order, with j past the
      end of the window, and which agrees with `pages` elsewhere, is
      `pages` with the window replaced by `w`. */
  lemma ReplaceWindowFilled(pages: map<int, seq<Line>>, after: map<int, seq<Line>>, lo: int, hi: int, j: int, w: seq<seq<Line>>)
    requires |w| == Max(0, hi - lo + 1) && j == Max(lo, hi + 1)
    requires after.Keys == pages.Keys
    requires forall m | m in pages :: after[m] == if lo <= m < j then w[m - lo] else pages[m]
    ensures after == ReplaceWindow(pages, lo, hi, w)
  {
  }

  /** Every slot of the windows of sites 1..sites is a page (the source
      raises KeyError otherwise). */
  ghost predicate WindowsPresent(cfg: Config, classes: map<int, seq<Line>>, subpages: int, sites: int)
  {
    forall s, j | 1 <= s <= sites && InWindow(cfg, subpages, s, j) :: j in classes
  }

  lemma WindowPresent(cfg: Config, classes: map<int, seq<Line>>, subpages: int, sites: int, s: int)
    requires WindowsPresent(cfg, classes, subpages, sites) && 1 <= s <= sites
    ensures forall j | WindowLo(cfg, subpages, s) <= j <= WindowHi(subpages, s) :: j in classes
  {
    forall j | WindowLo(cfg, subpages, s) <= j <= WindowHi(subpages, s)
      ensures j in classes
    {
      assert InWindow(cfg, subpages, s, j);
    }
  }

  ghost predicate ValidDraws(cfg: Config, subpages: int, draws: seq<seq<nat>>, sites: int)
  {
    |draws| >= sites && forall s | 0 <= s < sites :: ValidChoices(draws[s], Width(cfg, subpages))
  }

  /** Site s's window after `random.shuffle` made the draws `draws[s - 1]`. */
  function ShuffledWindow(cfg: Config, classes: map<int, seq<Line>>, subpages: int, draws: seq<seq<nat>>, sites: int, s: int)
    : (r: seq<seq<Line>>)
    requires WindowsPresent(cfg, classes, subpages, sites) && ValidDraws(cfg, subpages, draws, sites)
    requires 1 <= s <= sites
    ensures |r| == Width(cfg, subpages)
  {
    WindowPresent(cfg, classes, subpages, sites, s);
    WindowWidth(cfg, subpages, s);
    Shuffled(WindowPages(classes, WindowLo(cfg, subpages, s), WindowHi(subpages, s)), draws[s - 1])
  }

  /** The pages after the subpage shuffle of sites 1..n (easy_WSC.py
      625-641): a slot in a window takes its place in that window's shuffled
      list; every other slot keeps its page. */
  function SubpageShuffle(cfg: Config, classes: map<int, seq<Line>>, subpages: int, draws: seq<seq<nat>>, sites: int, n: int)
    : (r: map<int, seq<Line>>)
    requires subpages >= 1 && n <= sites
    requires WindowsPresent(cfg, classes, subpages, sites) && ValidDraws(cfg, subpages, draws, sites)
    ensures r.Keys == classes.Keys
  {
    map k | k in classes ::
      if Shuffles(cfg, subpages, n, k) then
        var s := SlotSite(subpages, k);
        ShuffledWindow(cfg, classes, subpages, draws, sites, s)[k - WindowLo(cfg, subpages, s)]
      else classes[k]
  }

  /** Shuffling no site changes nothing. */
  lemma SubpageShuffleNone(cfg: Config, classes: map<int, seq<Line>>, subpages: int, draws: seq<seq<nat>>, sites: int)
    requires subpages >= 1 && 0 <= sites
    requires WindowsPresent(cfg, classes, subpages, sites) && ValidDraws(cfg, subpages, draws, sites)
    ensures SubpageShuffle(cfg, classes, subpages, draws, sites, 0) == classes
  {
  }

  /** Shuffling site n after sites 1..n-1 rewrites site n's window and no
      other slot; before it, that window still holds its original pages. */
  lemma SubpageShuffleStep(cfg: Config, classes: map<int, seq<Line>>, subpages: int, draws: seq<seq<nat>>, sites: int, n: int, k: int)
    requires subpages >= 1 && 1 <= n <= sites
    requires WindowsPresent(cfg, classes, subpages, sites) && ValidDraws(cfg, subpages, draws, sites)
    requires k in classes
    ensures InWindow(cfg, subpages, n, k) ==>
              SubpageShuffle(cfg, classes, subpages, draws, sites, n - 1)[k] == classes[k]
              && 0 <= k - WindowLo(cfg, subpages, n) < Width(cfg, subpages)
              && SubpageShuffle(cfg, classes, subpages, draws, sites, n)[k]
                 == ShuffledWindow(cfg, classes, subpages, draws, sites, n)[k - WindowLo(cfg, subpages, n)]
    ensures !InWindow(cfg, subpages, n, k) ==>
              SubpageShuffle(cfg, classes, subpages, draws, sites, n)[k]
              == SubpageShuffle(cfg, classes, subpages, draws, sites, n - 1)[k]
  {
    if InWindow(cfg, subpages, n, k) {
      StepInside(cfg, classes, subpages, draws, sites, n, k);
    } else {
      StepOutside(cfg, classes, subpages, draws, sites, n, k);
    }
  }

  lemma StepInside(cfg: Config, classes: map<int, seq<Line>>, subpages: int, draws: seq<seq<nat>>, sites: int, n: int, k: int)
    requires subpages >= 1 && 1 <= n <= sites
    requires WindowsPresent(cfg, classes, subpages, sites) && ValidDraws(cfg, subpages, draws, sites)
    requires k in classes && InWindow(cfg, subpages, n, k)
    ensures SubpageShuffle(cfg, classes, subpages, draws, sites, n - 1)[k] == classes[k]
    ensures 0 <= k - WindowLo(cfg, subpages, n) < Width(cfg, subpages)
    ensures SubpageShuffle(cfg, classes, subpages, draws, sites, n)[k]
            == ShuffledWindow(cfg, classes, subpages, draws, sites, n)[k - WindowLo(cfg, subpages, n)]
  {
    WindowWidth(cfg, subpages, n);
    WindowSite(cfg, subpages, n, k);
    assert !Shuffles(cfg, subpages, n - 1, k);
    assert Shuffles(cfg, subpages, n, k);
  }

  lemma StepOutside(cfg: Config, classes: map<int, seq<Line>>, subpages: int, draws: seq<seq<nat>>, sites: int, n: int, k: int)
    requires subpages >= 1 && 1 <= n <= sites
    requires WindowsPresent(cfg, classes, subpages, sites) && ValidDraws(cfg, subpages, draws, sites)
    requires k in classes && !InWindow(cfg, subpages, n, k)
    ensures SubpageShuffle(cfg, classes, subpages, draws, sites, n)[k]
            == SubpageShuffle(cfg, classes, subpages, draws, sites, n - 1)[k]
  {
    assert Shuffles(cfg, subpages, n, k) == Shuffles(cfg, subpages, n - 1, k);
  }


  /** Before site n is shuffled, its window still holds the original pages. */
  lemma WindowUntouched(cfg: Config, classes: map<int, seq<Line>>, subpages: int, draws: seq<seq<nat>>, sites: int, n: int)
    requires subpages >= 1 && 1 <= n <= sites
    requires WindowsPresent(cfg, classes, subpages, sites) && ValidDraws(cfg, subpages, draws, sites)
    ensures forall j | WindowLo(cfg, subpages, n) <= j <= WindowHi(subpages, n) :: j in classes
    ensures WindowPages(SubpageShuffle(cfg, classes, subpages, draws, sites, n - 1), WindowLo(cfg, subpages, n), WindowHi(subpages, n))
         == WindowPages(classes, WindowLo(cfg, subpages, n), WindowHi(subpages, n))
  {
    WindowPresent(cfg, classes, subpages, sites, n);
    forall j | WindowLo(cfg, subpages, n) <= j <= WindowHi(subpages, n)
      ensures SubpageShuffle(cfg, classes, subpages, draws, sites, n - 1)[j] == classes[j]
    {
      SubpageShuffleStep(cfg, classes, subpages, draws, sites, n, j);
    }
  }

  /** One site's step of the loop: replacing the pages of site n's window
      (slots lo..hi) in the shuffle of sites 1..n-1 by their shuffle with the
      draws `draws[n - 1]` gives the shuffle of sites 1..n. The window still
      holds its original pages at that point (WindowUntouched). */
  lemma SubpageShuffleSite(cfg: Config, classes: map<int, seq<Line>>, subpages: int, draws: seq<seq<nat>>, sites: int, n: int,
                           lo: int, hi: int, prev: map<int, seq<Line>>, after: map<int, seq<Line>>)
    requires subpages >= 1 && 1 <= n <= sites
    requires WindowsPresent(cfg, classes, subpages, sites) && ValidDraws(cfg, subpages, draws, sites)
    requires lo == WindowLo(cfg, subpages, n) && hi == WindowHi(subpages, n)
    requires forall j | lo <= j <= hi :: j in classes
    requires ValidChoices(draws[n - 1], Max(0, hi - lo + 1))
    requires prev == SubpageShuffle(cfg, classes, subpages, draws, sites, n - 1)
    requires after == ReplaceWindow(prev, lo, hi, Shuffled(WindowPages(classes, lo, hi), draws[n - 1]))
    ensures after == SubpageShuffle(cfg, classes, subpages, draws, sites, n)
  {
    var window := WindowPages(classes, lo, hi);
    var shuffled := Shuffled(window, draws[n - 1]);
    forall m | m in classes
      ensures after[m] == SubpageShuffle(cfg, classes, subpages, draws, sites, n)[m]
    {
      ReplaceWindowAt(prev, lo, hi, shuffled, m);
      SubpageShuffleSlot(cfg, classes, subpages, draws, sites, n, lo, hi, prev[m], after[m], window, shuffled, m);
    }
  }

  /** The step of SubpageShuffleSite at one slot m, given the page `before`
      the shuffle of sites 1..n-1 left there and the page `now` the loop
      put there. */
  lemma SubpageShuffleSlot(cfg: Config, classes: map<int, seq<Line>>, subpages: int, draws: seq<seq<nat>>, sites: int, n: int,
                           lo: int, hi: int, before: seq<Line>, now: seq<Line>, window: seq<seq<Line>>,
                           shuffled: seq<seq<Line>>, m: int)
    requires subpages >= 1 && 1 <= n <= sites
    requires WindowsPresent(cfg, classes, subpages, sites) && ValidDraws(cfg, subpages, draws, sites)
    requires lo == WindowLo(cfg, subpages, n) && hi == WindowHi(subpages, n)
    requires m in classes && before == SubpageShuffle(cfg, classes, subpages, draws, sites, n - 1)[m]
    requires forall j | lo <= j <= hi :: j in classes
    requires window == WindowPages(classes, lo, hi)
    requires ValidChoices(draws[n - 1], |window|) && shuffled == Shuffled(window, draws[n - 1])
    requires now == if lo <= m <= hi then shuffled[m - lo] else before
    ensures now == SubpageShuffle(cfg, classes, subpages, draws, sites, n)[m]
  {
    if lo <= m <= hi {
      assert InWindow(cfg, subpages, n, m);
      assert ShuffledWindow(cfg, classes, subpages, draws, sites, n) == Shuffled(window, draws[n - 1]);
      StepInside(cfg, classes, subpages, draws, sites, n, m);
    } else {
      assert !InWindow(cfg, subpages, n, m);
      StepOutside(cfg, classes, subpages, draws, sites, n, m);
    }
  }

  /** A slot outside every window keeps its page; in particular every main
      page keeps its slot. */
  lemma SubpageShuffleFrame(cfg: Config, classes: map<int, seq<Line>>, subpages: int, draws: seq<seq<nat>>, sites: int, k: int)
    requires subpages >= 1
    requires WindowsPresent(cfg, classes, subpages, sites) && ValidDraws(cfg, subpages, draws, sites)
    requires k in classes && forall s | 1 <= s <= sites :: !InWindow(cfg, subpages, s, k)
    ensures SubpageShuffle(cfg, classes, subpages, draws, sites, sites)[k] == classes[k]
  {
    assert !Shuffles(cfg, subpages, sites, k) by {
      if 1 <= SlotSite(subpages, k) <= sites {
        assert !InWindow(cfg, subpages, SlotSite(subpages, k), k);
      }
    }
  }

  /** The main page slot of a site lies in no window. */
  lemma MainSlotOutsideWindows(cfg: Config, subpages: int, site: int, s: int)
    requires cfg.main && subpages >= 1
    ensures !InWindow(cfg, subpages, s, (site - 1) * subpages + 1)
  {
    if InWindow(cfg, subpages, s, (site - 1) * subpages + 1) {
      WindowSite(cfg, subpages, s, (site - 1) * subpages + 1);
      Arith.DivModUnique((site - 1) * subpages, subpages, site - 1, 0);
    }
  }

  /** Main pages keep their slot under the subpage shuffle. */
  lemma ShuffleKeepsMainPages(cfg: Config, classes: map<int, seq<Line>>, subpages: int, draws: seq<seq<nat>>, sites: int, site: int)
    requires cfg.main && subpages >= 1
    requires WindowsPresent(cfg, classes, subpages, sites) && ValidDraws(cfg, subpages, draws, sites)
    requires (site - 1) * subpages + 1 in classes
    ensures SubpageShuffle(cfg, classes, subpages, draws, sites, sites)[(site - 1) * subpages + 1]
         == classes[(site - 1) * subpages + 1]
  {
    var slot := (site - 1) * subpages + 1;
    forall s | 1 <= s <= sites
      ensures !InWindow(cfg, subpages, s, slot)
    {
      MainSlotOutsideWindows(cfg, subpages, site, s);
    }
    SubpageShuffleFrame(cfg, classes, subpages, draws, sites, slot);
  }

  /** After the shuffle, the window of site s holds that window's pages in the
      order `random.shuffle` gave them. */
  lemma SubpageShuffleWindow(cfg: Config, classes: map<int, seq<Line>>, subpages: int, draws: seq<seq<nat>>, sites: int, s: int)
    requires subpages >= 1 && 1 <= s <= sites
    requires WindowsPresent(cfg, classes, subpages, sites) && ValidDraws(cfg, subpages, draws, sites)
    ensures forall j | InWindow(cfg, subpages, s, j) :: j in classes
    ensures WindowPages(SubpageShuffle(cfg, classes, subpages, draws, sites, sites), WindowLo(cfg, subpages, s), WindowHi(subpages, s))
         == ShuffledWindow(cfg, classes, subpages, draws, sites, s)
  {
    var lo, hi := WindowLo(cfg, subpages, s), WindowHi(subpages, s);
    var after := SubpageShuffle(cfg, classes, subpages, draws, sites, sites);
    WindowPresent(cfg, classes, subpages, sites, s);
    WindowWidth(cfg, subpages, s);
    forall j | lo <= j <= hi
      ensures after[j] == ShuffledWindow(cfg, classes, subpages, draws, sites, s)[j - lo]
    {
      WindowSite(cfg, subpages, s, j);
      assert Shuffles(cfg, subpages, sites, j);
    }
  }

  /** The subpage shuffle only permutes: each site's window holds the same
      pages before and after it. */
  lemma SubpageShufflePermutes(cfg: Config, classes: map<int, seq<Line>>, subpages: int, draws: seq<seq<nat>>, sites: int, s: int)
    requires subpages >= 1 && 1 <= s <= sites
    requires WindowsPresent(cfg, classes, subpages, sites) && ValidDraws(cfg, subpages, draws, sites)
    ensures forall j | InWindow(cfg, subpages, s, j) :: j in classes
    ensures multiset(WindowPages(SubpageShuffle(cfg, classes, subpages, draws, sites, sites), WindowLo(cfg, subpages, s), WindowHi(subpages, s)))
         == multiset(WindowPages(classes, WindowLo(cfg, subpages, s), WindowHi(subpages, s)))
  {
    SubpageShuffleWindow(cfg, classes, subpages, draws, sites, s);
    WindowPresent(cfg, classes, subpages, sites, s);
    WindowWidth(cfg, subpages, s);
    ShufflePermutes(WindowPages(classes, WindowLo(cfg, subpages, s), WindowHi(subpages, s)), draws[s - 1]);
  }
}
