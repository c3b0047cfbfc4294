/**
 * Prediction aggregation in `evaluation` (easy_WSC.py 419-458): the
 * predicted and true labels of every fold's `.predict` lines, in fold order,
 * are mapped from page ids back to site ids (unless `simple`), counted as
 * correct or wrong and, in separate evaluation, as true/false
 * positives/negatives with true label 0 (background) as the negative class.
 */
module Aggregate {
  import opened Common
  import Arith
  import FoldSplit

  /** One `.predict` line `pred,real`, parsed. */
  datatype Prediction = Prediction(predicted: int, actual: int)

  datatype Tally = Tally(correct: nat, wrong: nat, tp: nat, fn: nat, fp: nat, tn: nat)

  /** The remap of easy_WSC.py 434-441: a page id over subpages, plus one
      when the division leaves a remainder. */
  function SiteOfLabel(id: int, subpages: int): int
    requires subpages >= 1
  {
    if id % subpages == 0 then id / subpages else id / subpages + 1
  }

  /** The remap is the ceiling: a page id lies in the block of site s
      exactly when it maps to s; in particular background label 0 stays 0. */
  lemma SiteOfLabelIsCeiling(id: int, subpages: int, s: int)
    requires subpages >= 1
    ensures SiteOfLabel(id, subpages) == s <==> (s - 1) * subpages < id <= s * subpages
  {
    var q, r := id / subpages, id % subpages;
    assert id == q * subpages + r;
    var c := SiteOfLabel(id, subpages);
    assert (c - 1) * subpages < id <= c * subpages;
    if s < c {
      Arith.MulMono(s, c - 1, subpages);
    } else if s > c {
      Arith.MulMono(c, s - 1, subpages);
    }
  }

  /** The remap inverts the labelling of the per-fold files: page id k is
      mapped back to the site `outputInput` counted it in. */
  lemma SiteOfLabelInvertsFolds(k: int, subpages: int)
    requires subpages >= 2 && k >= 0
    ensures SiteOfLabel(k, subpages) == FoldSplit.SiteCounter(subpages, k)
  {
    FoldSplit.SiteCounterIsCeiling(subpages, k);
    var q, r := k / subpages, k % subpages;
    assert k == q * subpages + r;
    if r == 0 {
      Arith.DivModUnique(k + subpages - 1, subpages, q, subpages - 1);
    } else {
      Arith.DivModUnique(k + subpages - 1, subpages, q + 1, r - 1);
    }
  }

  /** A prediction line after the remap. */
  function Remap(cfg: Config, subpages: int, p: Prediction): Prediction
    requires subpages >= 1
  {
    if cfg.simple then p else Prediction(SiteOfLabel(p.predicted, subpages), SiteOfLabel(p.actual, subpages))
  }

  /** The counters after one more (remapped) prediction. */
  function Count(cfg: Config, t: Tally, p: Prediction): Tally
  {
    if p.predicted == p.actual then
      t.(correct := t.correct + 1,
         tn := if cfg.separateEval && p.actual == 0 then t.tn + 1 else t.tn,
         tp := if cfg.separateEval && p.actual != 0 then t.tp + 1 else t.tp)
    else
      t.(wrong := t.wrong + 1,
         fp := if cfg.separateEval && p.actual == 0 then t.fp + 1 else t.fp,
         fn := if cfg.separateEval && p.actual != 0 then t.fn + 1 else t.fn)
  }

  /** The counters after the predictions `ps`. */
  function TallyOf(cfg: Config, subpages: int, ps: seq<Prediction>): Tally
    requires subpages >= 1
  {
    if ps == [] then Tally(0, 0, 0, 0, 0, 0)
    else Count(cfg, TallyOf(cfg, subpages, ps[..|ps| - 1]), Remap(cfg, subpages, ps[|ps| - 1]))
  }

  /** Every prediction is counted once as correct or wrong; in separate
      evaluation the positives and negatives split those counts, and
      otherwise they stay 0. */
  lemma {:induction false} TallyTotals(cfg: Config, subpages: int, ps: seq<Prediction>)
    requires subpages >= 1
    ensures TallyOf(cfg, subpages, ps).correct + TallyOf(cfg, subpages, ps).wrong == |ps|
    ensures cfg.separateEval ==>
              TallyOf(cfg, subpages, ps).tp + TallyOf(cfg, subpages, ps).tn == TallyOf(cfg, subpages, ps).correct
              && TallyOf(cfg, subpages, ps).fp + TallyOf(cfg, subpages, ps).fn == TallyOf(cfg, subpages, ps).wrong
    ensures !cfg.separateEval ==>
              TallyOf(cfg, subpages, ps).tp == TallyOf(cfg, subpages, ps).tn
              == TallyOf(cfg, subpages, ps).fp == TallyOf(cfg, subpages, ps).fn == 0
  {
    if ps != [] {
      TallyTotals(cfg, subpages, ps[..|ps| - 1]);
    }
  }

  /** The correct count is the number of predictions whose remapped labels
      agree. */
  function Agreeing(cfg: Config, subpages: int, ps: seq<Prediction>): nat
    requires subpages >= 1
  {
    |set i | 0 <= i < |ps| && Remap(cfg, subpages, ps[i]).predicted == Remap(cfg, subpages, ps[i]).actual|
  }

  lemma {:induction false} CorrectCountsAgreement(cfg: Config, subpages: int, ps: seq<Prediction>)
    requires subpages >= 1
    ensures TallyOf(cfg, subpages, ps).correct == Agreeing(cfg, subpages, ps)
  {
    if ps != [] {
      var init := ps[..|ps| - 1];
      CorrectCountsAgreement(cfg, subpages, init);
      var a := set i | 0 <= i < |init| && Remap(cfg, subpages, init[i]).predicted == Remap(cfg, subpages, init[i]).actual;
      var b := set i | 0 <= i < |ps| && Remap(cfg, subpages, ps[i]).predicted == Remap(cfg, subpages, ps[i]).actual;
      var last := Remap(cfg, subpages, ps[|ps| - 1]);
      if last.predicted == last.actual {
        assert b == a + {|ps| - 1};
      } else {
        assert b == a;
      }
    }
  }

  /** The lines of all folds' prediction files, in fold order. */
  function Flatten(folds: seq<seq<Prediction>>): seq<Prediction>
  {
    if folds == [] then [] else Flatten(folds[..|folds| - 1]) + folds[|folds| - 1]
  }

  /** The loop over one fold's prediction lines, continuing the counters
      `t0` and the written lines `w0` of the predictions `before`. */
  method AggregateFold(cfg: Config, subpages: int, before: seq<Prediction>, lines: seq<Prediction>,
                       t0: Tally, w0: seq<Prediction>)
    returns (t: Tally, written: seq<Prediction>)
    requires subpages >= 1
    requires t0 == TallyOf(cfg, subpages, before)
    requires |w0| == |before| && forall i | 0 <= i < |w0| :: w0[i] == Remap(cfg, subpages, before[i])
    ensures t == TallyOf(cfg, subpages, before + lines)
    ensures |written| == |before + lines|
    ensures forall i | 0 <= i < |written| :: written[i] == Remap(cfg, subpages, (before + lines)[i])
  {
    t, written := t0, w0;
    var j := 0;
    assert before + lines[..0] == before;
    while j < |lines|
      invariant 0 <= j <= |lines|
      invariant t == TallyOf(cfg, subpages, before + lines[..j])
      invariant |written| == |before| + j
      invariant forall i | 0 <= i < |written| :: written[i] == Remap(cfg, subpages, (before + lines[..j])[i])
    {
      ghost var done := before + lines[..j];
      assert before + lines[..j + 1] == done + [lines[j]];
      assert (done + [lines[j]])[..|done|] == done;
      var p := lines[j];
      if !cfg.simple {
        p := Prediction(SiteOfLabel(p.predicted, subpages), SiteOfLabel(p.actual, subpages));
      }
      assert p == Remap(cfg, subpages, lines[j]);
      ghost var t1 := t;
      if p.predicted == p.actual {
        t := t.(correct := t.correct + 1);
        if cfg.separateEval {
          if p.actual == 0 {
            t := t.(tn := t.tn + 1);
          } else {
            t := t.(tp := t.tp + 1);
          }
        }
      } else {
        t := t.(wrong := t.wrong + 1);
        if cfg.separateEval {
          if p.actual == 0 {
            t := t.(fp := t.fp + 1);
          } else {
            t := t.(fn := t.fn + 1);
          }
        }
      }
      assert t == Count(cfg, t1, p);
      written := written + [p];
      j := j + 1;
    }
    assert lines[..j] == lines;
  }

  /** The aggregation loop over the folds: the counters and the `.result`
      lines (`pred,real` after the remap). */
  method AggregateFolds(cfg: Config, subpages: int, folds: seq<seq<Prediction>>)
    returns (t: Tally, written: seq<Prediction>)
    requires subpages >= 1
    ensures t == TallyOf(cfg, subpages, Flatten(folds))
    ensures |written| == |Flatten(folds)|
    ensures forall i | 0 <= i < |written| :: written[i] == Remap(cfg, subpages, Flatten(folds)[i])
  {
    t := Tally(0, 0, 0, 0, 0, 0);
    written := [];
    var f := 0;
    while f < |folds|
      invariant 0 <= f <= |folds|
      invariant t == TallyOf(cfg, subpages, Flatten(folds[..f]))
      invariant |written| == |Flatten(folds[..f])|
      invariant forall i | 0 <= i < |written| :: written[i] == Remap(cfg, subpages, Flatten(folds[..f])[i])
    {
      assert folds[..f + 1][..f] == folds[..f];
      assert Flatten(folds[..f + 1]) == Flatten(folds[..f]) + folds[f];
      t, written := AggregateFold(cfg, subpages, Flatten(folds[..f]), folds[f], t, written);
      f := f + 1;
    }
    assert folds[..f] == folds;
  }
}
