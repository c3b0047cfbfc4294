/**
 * The scenario suffix of the output file names (easy_WSC.py 708-714): the
 * number of sites (unless sites are evaluated separately), the pages per
 * site, the instances per subpage and, when used, per main page and in the
 * background, each written as `_<number><tag>`.
 */
module Scenario {
  import opened Common
  import Text

  /** `'_' + str(n) + tag`. */
  function Tagged(n: int, tag: string): string
  {
    "_" + Text.IntToString(n) + tag
  }

  function When(c: bool, s: string): string
  {
    if c then s else ""
  }

  /** The suffix appended to `scenario` once the counts are settled: `perSite`,
      `perPage`, `perMainPage` and `bgSize` are the values after the fold
      plan, the background trim and the instance check have replaced the
      missing limits. */
  function ScenarioSuffix(cfg: Config, sites: int, perSite: int, perPage: int, perMainPage: int, bgSize: int): string
  {
    When(!cfg.separateEval, Tagged(sites, "S"))
    + (Tagged(perSite, "SP")
       + (Tagged(perPage, "ISP")
          + (When(cfg.main, Tagged(perMainPage, "IMP"))
             + When(cfg.openworld, Tagged(bgSize, "IBG")))))
  }

  /** A tagged number at the front of a name can be read back: the number and
      what follows it are determined. */
  lemma PeelTagged(a: int, b: int, tag: string, r1: string, r2: string)
    requires tag != [] && !Text.IsNumeral(tag[0])
    requires Tagged(a, tag) + r1 == Tagged(b, tag) + r2
    ensures a == b && r1 == r2
  {
    var x, y := Text.IntToString(a), Text.IntToString(b);
    Text.IntToStringRoundTrip(a);
    Text.IntToStringRoundTrip(b);
    assert Tagged(a, tag) + r1 == "_" + (x + (tag + r1));
    assert Tagged(b, tag) + r2 == "_" + (y + (tag + r2));
    assert x + (tag + r1) == ("_" + (x + (tag + r1)))[1..];
    assert y + (tag + r2) == ("_" + (y + (tag + r2)))[1..];
    Text.PeelNumeral(x, y, tag + r1, tag + r2);
    Text.IntToStringInjective(a, b);
    assert r1 == (tag + r1)[|tag|..];
    assert r2 == (tag + r2)[|tag|..];
  }

  /** Two runs with the same flags get the same file names only when every
      count written into the name agrees. */
  lemma ScenarioInjective(cfg: Config, sites: int, perSite: int, perPage: int, perMainPage: int, bgSize: int,
                          sites': int, perSite': int, perPage': int, perMainPage': int, bgSize': int)
    requires ScenarioSuffix(cfg, sites, perSite, perPage, perMainPage, bgSize)
             == ScenarioSuffix(cfg, sites', perSite', perPage', perMainPage', bgSize')
    ensures !cfg.separateEval ==> sites == sites'
    ensures perSite == perSite' && perPage == perPage'
    ensures cfg.main ==> perMainPage == perMainPage'
    ensures cfg.openworld ==> bgSize == bgSize'
  {
    var tail1 := When(cfg.openworld, Tagged(bgSize, "IBG"));
    var tail2 := When(cfg.openworld, Tagged(bgSize', "IBG"));
    var m1 := When(cfg.main, Tagged(perMainPage, "IMP")) + tail1;
    var m2 := When(cfg.main, Tagged(perMainPage', "IMP")) + tail2;
    var p1 := Tagged(perPage, "ISP") + m1;
    var p2 := Tagged(perPage', "ISP") + m2;
    var s1 := Tagged(perSite, "SP") + p1;
    var s2 := Tagged(perSite', "SP") + p2;
    assert ScenarioSuffix(cfg, sites, perSite, perPage, perMainPage, bgSize)
           == When(!cfg.separateEval, Tagged(sites, "S")) + s1;
    assert ScenarioSuffix(cfg, sites', perSite', perPage', perMainPage', bgSize')
           == When(!cfg.separateEval, Tagged(sites', "S")) + s2;
    if !cfg.separateEval {
      PeelTagged(sites, sites', "S", s1, s2);
    } else {
      assert "" + s1 == s1 && "" + s2 == s2;
    }
    PeelTagged(perSite, perSite', "SP", p1, p2);
    PeelTagged(perPage, perPage', "ISP", m1, m2);
    if cfg.main {
      PeelTagged(perMainPage, perMainPage', "IMP", tail1, tail2);
    } else {
      assert "" + tail1 == tail1 && "" + tail2 == tail2;
    }
    if cfg.openworld {
      assert Tagged(bgSize, "IBG") + [] == tail1;
      assert Tagged(bgSize', "IBG") + [] == tail2;
      PeelTagged(bgSize, bgSize', "IBG", [], []);
    }
  }
}
