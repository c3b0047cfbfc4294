/**
 * Shared vocabulary of the website-fingerprinting dataset bookkeeping:
 * feature lines, the run configuration, and the fatal errors.
 */
module Common {

  /** One instance line of a feature file: the integer in its first column and
      the text after its first space (the sparse `index:value` list with its
      newline). Relabelling a line keeps `rest` and replaces `classNo`. */
  datatype Line = Line(classNo: int, rest: string)

  /** The fatal stops of a run: each is a `raise SystemExit` after an error
      message, or an uncaught exception, in the source. */
  datatype Fault =
    | ZeroLabelInClosedWorld        // a background line in a closed-world run
    | DomainListExhausted           // more background lines than domain-list entries
    | PagesNotDivisible             // pages per site not a multiple of the fold count
    | LimitedPagesNotDivisible      // the subpage limit not a multiple of the fold count
    | BackgroundTooSmall(available: nat)
    | BackgroundNotDivisible
    | MainPageTooShort
    | MainPagesUnequal
    | SubpagesUnequal
    | MissingPage(id: int)          // a dictionary lookup of a page id that is absent

  datatype Option<T> = None | Some(value: T)

  datatype Result<T> = Ok(value: T) | Err(fault: Fault)

  type Pos = n: int | n >= 1 witness 1

  /** The validated command-line configuration. The `per*` and `bgSize`
      values are -1 when no limit was given; the limit flags are derived from
      them exactly as the source derives `limitPage`, `limitMainPage`,
      `limitBackground` and `limitSite`. */
  datatype Config = Config(
    main: bool,              // main pages used (training data of every fold)
    openworld: bool,         // setting OW
    simple: bool,            // site-level labels instead of per-page labels
    quick: bool,             // one pooled parameter search instead of one per fold
    separateEval: bool,      // one open-world run per site
    shuffleInstances: bool,
    shuffleSubpages: bool,
    folds: Pos,
    perPage: int,
    perMainPage: int,
    bgSize: int,
    perSite: int,
    form: string)
  {
    predicate LimitPage() { perPage > -1 }
    predicate LimitMainPage() { perMainPage > -1 }
    predicate LimitBackground() { bgSize > -1 && openworld }
    predicate LimitSite() { perSite > -1 }
  }

  /** Every line of `ls`, written as `<classNo> <rest>`. */
  function RelabelAll(ls: seq<Line>, classNo: int): seq<Line>
  {
    seq(|ls|, i requires 0 <= i < |ls| => Line(classNo, ls[i].rest))
  }

  function Max(a: int, b: int): int { if a < b then b else a }
}
