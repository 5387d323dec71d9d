/** lib/ContextBuilder.ts: the older dependency walk. Values are deep-merged
    into a nested `context[sheet][label]` map; a formula value is parsed with
    handlers attached for that one parse, and the labels they collect are
    built in turn, into the same map. As in lib/build-context.ts there is no
    visited set, so `fuel` bounds the depth of the walk. */
module ContextBuilder {
  import opened Errors
  import opened Text
  import opened Values
  import opened FormulaParser
  import BuildContext

  /** The nested context: sheet number, then cell label. */
  type Sheets = map<int, map<string, Value>>

  /** What `lookUp` hands to `done`: the sheet, the cell's label and its value. */
  datatype Answer = Answer(sheet: int, text: string, value: Value)

  /** `parseRange(start, end)`: the labels of a range, or what it throws. */
  type RangeParser = (ParserReference, ParserReference) -> Result<seq<string>>

  /** The collaborators of a build. `lookUp` calls `done` with an answer,
      throws, or never calls `done`; `toAbsCoord` and `parseRange` come from
      lib/utils, which is not part of this model, and either may throw;
      `walk` is the parser's sequence of handler calls for a formula text. */
  datatype Env = Env(lookUp: string -> Option<Result<Answer>>,
                     toAbsCoord: string -> Result<string>,
                     walk: Walk,
                     parseRange: RangeParser)

  /** Where a build ends: its status, the context, the labels looked up in order. */
  datatype Outcome = Outcome(status: BuildContext.Status, context: Sheets, fetched: seq<string>)

  /** The entry at `context[sheet][label]`, if there is one. */
  function Entry(m: Sheets, sheet: int, key: string): Option<Value>
  {
    if sheet in m && key in m[sheet] then Some(m[sheet][key]) else None
  }

  /** `_merge(context, {[sheet]: {[label]: value}})`: lodash merges the one
      entry in, creating the sheet's map if need be; an `undefined` source
      value is skipped when the entry already exists. */
  function MergeEntry(m: Sheets, sheet: int, key: string, value: Value): (r: Sheets)
    ensures Entry(r, sheet, key)
         == if value.Undefined? && Entry(m, sheet, key).Some? then Entry(m, sheet, key) else Some(value)
    ensures forall s, l | s != sheet || l != key :: Entry(r, s, l) == Entry(m, s, l)
    ensures r.Keys == m.Keys + {sheet}
  {
    var inner := if sheet in m then m[sheet] else map[];
    if value.Undefined? && key in inner then m
    else m[sheet := inner[key := value]]
  }

  /** Merging the same entry twice is merging it once. */
  lemma MergeEntryIdempotent(m: Sheets, sheet: int, key: string, value: Value)
    ensures MergeEntry(MergeEntry(m, sheet, key, value), sheet, key, value) == MergeEntry(m, sheet, key, value)
  {
    var once := MergeEntry(m, sheet, key, value);
    var twice := MergeEntry(once, sheet, key, value);
    assert sheet in once && key in once[sheet];
    if !value.Undefined? {
      assert twice[sheet] == once[sheet];
    }
  }

  /** The context object the caller passes in; `_merge` writes into it. */
  class NestedContext {
    var sheets: Sheets

    constructor (initial: Sheets)
      ensures sheets == initial
    {
      sheets := initial;
    }

    /** `_merge(context, {[sheet]: {[label]: value}})`, in place. */
    method Merge(sheet: int, key: string, value: Value)
      modifies this
      ensures sheets == MergeEntry(old(sheets), sheet, key, value)
    {
      sheets := MergeEntry(sheets, sheet, key, value);
    }
  }

  // ---------------------------------------------------------------------
  // The parser's handlers
  // ---------------------------------------------------------------------

  /** What one handler pushes for one parser event: the cell's label, or
      the labels of the range; nothing when `parseRange` throws. */
  function Handled(v: Visit, parseRange: RangeParser): seq<string>
  {
    match v
    case CellValue(cell) => [cell.text]
    case RangeValue(start, end) => if parseRange(start, end).Ok? then parseRange(start, end).value else []
  }

  /** What one handler passes to `reject` for one parser event: the error
      `parseRange` throws, caught inside the range handler. */
  function RangeThrow(v: Visit, parseRange: RangeParser): Option<Error>
  {
    match v
    case CellValue(_) => None
    case RangeValue(start, end) => if parseRange(start, end).Err? then Some(parseRange(start, end).error) else None
  }

  /** The error of the first range handler that rejects during a walk. The
      handler catches it, so the walk goes on; later rejections of the same
      promise change nothing. */
  function Rejection(visits: seq<Visit>, parseRange: RangeParser): Option<Error>
  {
    if visits == [] then None
    else
      var earlier := Rejection(visits[..|visits| - 1], parseRange);
      if earlier.Some? then earlier else RangeThrow(visits[|visits| - 1], parseRange)
  }

  /** The status of a `done` callback that may have rejected during its parse:
      a rejection settles the promise first, so neither the later `resolve()`
      nor the nested build's own rejection or stall changes it. A walk cut
      short by the fuel bound stays visible as such. */
  function Settle(thrown: Option<Error>, status: BuildContext.Status): (r: BuildContext.Status)
    ensures thrown.None? || status.OutOfFuel? ==> r == status
    ensures thrown.Some? && !status.OutOfFuel? ==> r == BuildContext.Rejected(thrown.value)
  {
    if thrown.Some? && !status.OutOfFuel? then BuildContext.Rejected(thrown.value) else status
  }

  /** The labels one `callCellValue` and one `callRangeValue` handler collect
      over a walk: single cells and expanded ranges, in visiting order. */
  function Materials(visits: seq<Visit>, parseRange: RangeParser): seq<string>
  {
    if visits == [] then []
    else Materials(visits[..|visits| - 1], parseRange) + Handled(visits[|visits| - 1], parseRange)
  }

  /** `s` repeated `k` times. */
  function Repeat(s: seq<string>, k: nat): (r: seq<string>)
    ensures |r| == k * |s|
  {
    if k == 0 then [] else Repeat(s, k - 1) + s
  }

  /** What a walk pushes when `cells` handlers listen to `callCellValue` and
      `ranges` handlers to `callRangeValue`: every handler of an event runs. */
  function Emitted(visits: seq<Visit>, cells: nat, ranges: nat,
                   parseRange: RangeParser): seq<string>
  {
    if visits == [] then []
    else
      var last := visits[|visits| - 1];
      Emitted(visits[..|visits| - 1], cells, ranges, parseRange)
        + Repeat(Handled(last, parseRange), if last.CellValue? then cells else ranges)
  }

  /** The parser object, as far as its event handlers go: how many handlers
      listen to each of the two events. */
  class Parser {
    var cellListeners: nat
    var rangeListeners: nat

    /** No handler is attached. */
    predicate Idle()
      reads this
    {
      cellListeners == 0 && rangeListeners == 0
    }

    constructor ()
      ensures Idle()
    {
      cellListeners, rangeListeners := 0, 0;
    }

    /** `on('callCellValue', handler)` */
    method OnCellValue()
      modifies this
      ensures cellListeners == old(cellListeners) + 1 && rangeListeners == old(rangeListeners)
    {
      cellListeners := cellListeners + 1;
    }

    /** `on('callRangeValue', handler)` */
    method OnRangeValue()
      modifies this
      ensures rangeListeners == old(rangeListeners) + 1 && cellListeners == old(cellListeners)
    {
      rangeListeners := rangeListeners + 1;
    }

    /** `off('callCellValue')`: every handler of the event is removed. */
    method OffCellValue()
      modifies this
      ensures cellListeners == 0 && rangeListeners == old(rangeListeners)
    {
      cellListeners := 0;
    }

    /** `off('callRangeValue')` */
    method OffRangeValue()
      modifies this
      ensures rangeListeners == 0 && cellListeners == old(cellListeners)
    {
      rangeListeners := 0;
    }

    /** `parse(formula)`: the parser walks the formula and every attached
        handler pushes its labels onto `materials`. */
    method Parse(formula: string, walk: Walk, parseRange: RangeParser,
                 materials: seq<string>)
      returns (pushed: seq<string>, rejected: Option<Error>)
      ensures pushed == materials + Emitted(walk(formula), cellListeners, rangeListeners, parseRange)
      ensures rejected == if rangeListeners == 0 then None else Rejection(walk(formula), parseRange)
    {
      var visits := walk(formula);
      pushed, rejected := materials, None;
      for i := 0 to |visits|
        invariant pushed == materials + Emitted(visits[..i], cellListeners, rangeListeners, parseRange)
        invariant rejected == if rangeListeners == 0 then None else Rejection(visits[..i], parseRange)
      {
        var listeners := if visits[i].CellValue? then cellListeners else rangeListeners;
        pushed := RunHandlers(pushed, Handled(visits[i], parseRange), listeners);
        if listeners > 0 && rejected.None? {
          rejected := RangeThrow(visits[i], parseRange);
        }
        EmittedStep(visits, i, cellListeners, rangeListeners, parseRange);
        AppendAssociates(materials, Emitted(visits[..i], cellListeners, rangeListeners, parseRange),
                         Repeat(Handled(visits[i], parseRange), listeners));
      }
      assert visits[..|visits|] == visits;
    }
  }

  /** Every one of `listeners` handlers of an event pushes the event's labels. */
  method RunHandlers(pushed: seq<string>, labels: seq<string>, listeners: nat) returns (r: seq<string>)
    ensures r == pushed + Repeat(labels, listeners)
  {
    r := pushed;
    for k := 0 to listeners
      invariant r == pushed + Repeat(labels, k)
    {
      r := r + labels;
    }
  }

  /** One more visit: its handlers push after those of the visits before it. */
  lemma EmittedStep(visits: seq<Visit>, i: nat, cells: nat, ranges: nat,
                    parseRange: RangeParser)
    requires i < |visits|
    ensures Emitted(visits[..i + 1], cells, ranges, parseRange)
         == Emitted(visits[..i], cells, ranges, parseRange)
            + Repeat(Handled(visits[i], parseRange), if visits[i].CellValue? then cells else ranges)
    ensures Rejection(visits[..i + 1], parseRange)
         == if Rejection(visits[..i], parseRange).Some? then Rejection(visits[..i], parseRange)
            else RangeThrow(visits[i], parseRange)
  {
    assert visits[..i + 1][..i] == visits[..i];
  }

  /** With one handler on each event, a parse collects exactly the materials. */
  lemma {:induction false} EmittedOnce(visits: seq<Visit>, parseRange: RangeParser)
    ensures Emitted(visits, 1, 1, parseRange) == Materials(visits, parseRange)
  {
    if visits != [] {
      EmittedOnce(visits[..|visits| - 1], parseRange);
      assert Repeat(Handled(visits[|visits| - 1], parseRange), 1) == Handled(visits[|visits| - 1], parseRange);
    }
  }

  /** With the handlers detached, a parse collects nothing. */
  lemma {:induction false} EmittedDetached(visits: seq<Visit>, parseRange: RangeParser)
    ensures Emitted(visits, 0, 0, parseRange) == []
  {
    if visits != [] {
      EmittedDetached(visits[..|visits| - 1], parseRange);
    }
  }

  /** Materials follow the visiting order: those of a walk in two parts are
      those of the first part, then those of the second. */
  lemma {:induction false} MaterialsAppend(xs: seq<Visit>, ys: seq<Visit>,
                                           parseRange: RangeParser)
    ensures Materials(xs + ys, parseRange) == Materials(xs, parseRange) + Materials(ys, parseRange)
    decreases |ys|
  {
    if ys == [] {
      assert xs + ys == xs;
    } else {
      var ys' := ys[..|ys| - 1];
      DropLastOfJoin(xs, ys);
      MaterialsAppend(xs, ys', parseRange);
    }
  }

  /** A walk of single cells collects their labels, duplicates kept. */
  lemma {:induction false} MaterialsOfCells(visits: seq<Visit>, parseRange: RangeParser)
    requires forall i | 0 <= i < |visits| :: visits[i].CellValue?
    ensures Materials(visits, parseRange) == seq(|visits|, i requires 0 <= i < |visits| => visits[i].cell.text)
  {
    if visits != [] {
      MaterialsOfCells(visits[..|visits| - 1], parseRange);
    }
  }

  // ---------------------------------------------------------------------
  // The walk
  // ---------------------------------------------------------------------

  /** The build of `entries` in order, from the context `m`. */
  function Build(entries: seq<string>, env: Env, m: Sheets, fuel: nat): (r: Outcome)
    ensures entries != [] ==> r.fetched != []
    decreases fuel, |entries|, 1
  {
    if entries == [] then Outcome(BuildContext.Built, m, [])
    else
      var o := Build(entries[..|entries| - 1], env, m, fuel);
      if !o.status.Built? then o
      else
        var p := Visit(entries[|entries| - 1], env, o.context, fuel);
        Outcome(p.status, p.context, o.fetched + p.fetched)
  }

  /** The `done` callback for one label: merge the value in; for a formula
      text, parse it and build the labels it names. `toAbsCoord` runs outside
      the callback's `try`: its throw rejects only the async callback, so the
      build's promise never settles. A throwing `parseRange` is caught by its
      handler, which rejects the build, but the parse, the detaching of the
      handlers and the nested build still run. The recursive build
      returns this same context, and lodash's merge of an object into itself
      changes nothing, so that second merge is not modelled. */
  function Visit(cell: string, env: Env, m: Sheets, fuel: nat): (r: Outcome)
    ensures r.fetched != [] && r.fetched[0] == cell
    decreases fuel, 0, 0
  {
    match env.lookUp(cell)
    case None => Outcome(BuildContext.Stalled, m, [cell])
    case Some(Err(e)) => Outcome(BuildContext.Rejected(e), m, [cell])
    case Some(Ok(a)) =>
      match env.toAbsCoord(a.text)
      case Err(_) => Outcome(BuildContext.Stalled, m, [cell])
      case Ok(key) =>
        var m' := MergeEntry(m, a.sheet, key, a.value);
        if !BuildContext.IsFormulaValue(a.value) then Outcome(BuildContext.Built, m', [cell])
        else
          var visits := env.walk(a.value.s[1..]);
          var materials := Materials(visits, env.parseRange);
          if materials == [] then Outcome(Settle(Rejection(visits, env.parseRange), BuildContext.Built), m', [cell])
          else if fuel == 0 then Outcome(BuildContext.OutOfFuel, m', [cell])
          else
            var o := Build(materials, env, m', fuel - 1);
            Outcome(Settle(Rejection(visits, env.parseRange), o.status), o.context, [cell] + o.fetched)
  }

  /** `buildContext(entries, lookUp, context)`: a fresh parser, then the
      entries one after the other; the context is changed in place. */
  method BuildContextOf(entries: seq<string>, env: Env, context: NestedContext, fuel: nat)
    returns (status: BuildContext.Status, fetched: seq<string>)
    modifies context
    ensures Outcome(status, context.sheets, fetched) == Build(entries, env, old(context.sheets), fuel)
    decreases fuel, |entries|, 1
  {
    var parser := new Parser();
    fetched := [];
    var i := 0;
    while i < |entries|
      invariant 0 <= i <= |entries|
      invariant parser.Idle()
      invariant Build(entries[..i], env, old(context.sheets), fuel) == Outcome(BuildContext.Built, context.sheets, fetched)
    {
      BuildStep(entries, i, env, old(context.sheets), fuel);
      var s, f := LookUpDone(entries[i], env, parser, context, fuel);
      fetched := fetched + f;
      if !s.Built? {
        BuildStops(entries[..i + 1], entries[i + 1..], env, old(context.sheets), fuel);
        PrefixSplit(entries, i + 1);
        return s, fetched;
      }
      i := i + 1;
    }
    PrefixSplit(entries, i);
    status := BuildContext.Built;
  }

  /**
   * One more entry: a build that has not stopped visits it next. This is
   * `BuildContext.BuildStep` restated for this builder's own `Build`, which
   * walks nested contexts by their names rather than cells by reference.
   */
  lemma BuildStep(entries: seq<string>, i: nat, env: Env, m: Sheets, fuel: nat)
    requires i < |entries|
    ensures var o := Build(entries[..i], env, m, fuel);
      Build(entries[..i + 1], env, m, fuel)
        == if !o.status.Built? then o
           else var p := Visit(entries[i], env, o.context, fuel); Outcome(p.status, p.context, o.fetched + p.fetched)
  {
    assert entries[..i + 1][..i] == entries[..i];
  }

  /** `lookUp(cell, done)` and the `done` callback, for one entry. The
      handlers are attached for the one parse and detached after it. */
  method LookUpDone(cell: string, env: Env, parser: Parser, context: NestedContext, fuel: nat)
    returns (status: BuildContext.Status, fetched: seq<string>)
    requires parser.Idle()
    modifies parser, context
    ensures parser.Idle()
    ensures Outcome(status, context.sheets, fetched) == Visit(cell, env, old(context.sheets), fuel)
    decreases fuel, 0, 0
  {
    fetched := [cell];
    var answer := env.lookUp(cell);
    if answer.None? {
      return BuildContext.Stalled, fetched;
    }
    if answer.value.Err? {
      return BuildContext.Rejected(answer.value.error), fetched;
    }
    var a := answer.value.value;
    var key := env.toAbsCoord(a.text);
    if key.Err? {
      return BuildContext.Stalled, fetched;
    }
    context.Merge(a.sheet, key.value, a.value);
    if !BuildContext.IsFormulaValue(a.value) {
      return BuildContext.Built, fetched;
    }
    parser.OnCellValue();
    parser.OnRangeValue();
    var materials, rejected := parser.Parse(a.value.s[1..], env.walk, env.parseRange, []);
    parser.OffCellValue();
    parser.OffRangeValue();
    EmittedOnce(env.walk(a.value.s[1..]), env.parseRange);
    if |materials| == 0 {
      return Settle(rejected, BuildContext.Built), fetched;
    }
    if fuel == 0 {
      return BuildContext.OutOfFuel, fetched;
    }
    var less: nat := fuel - 1;
    VisitBuildsMaterials(cell, env, old(context.sheets), fuel, a, materials, less);
    var s, f := BuildContextOf(materials, env, context, less);
    status, fetched := Settle(rejected, s), fetched + f;
  }

  /** `Visit` of a formula whose materials are not empty, unfolded once. */
  lemma VisitBuildsMaterials(cell: string, env: Env, m: Sheets, fuel: nat, a: Answer,
                             materials: seq<string>, less: nat)
    requires Answers(env, cell, a) && BuildContext.IsFormulaValue(a.value)
    requires materials == Materials(env.walk(a.value.s[1..]), env.parseRange)
    requires materials != [] && fuel == less + 1
    ensures var o := Build(materials, env, Merged(m, env, a), less);
            Visit(cell, env, m, fuel)
              == Outcome(Settle(Rejection(env.walk(a.value.s[1..]), env.parseRange), o.status), o.context, [cell] + o.fetched)
  {
  }

  // ---------------------------------------------------------------------
  // Properties
  // ---------------------------------------------------------------------

  /**
   * A build that stops on a prefix of the entries stops there for good; the
   * counterpart of `BuildContext.BuildStops` for this builder's `Build`.
   */
  lemma {:induction false} BuildStops(xs: seq<string>, ys: seq<string>, env: Env, m: Sheets, fuel: nat)
    requires !Build(xs, env, m, fuel).status.Built?
    ensures Build(xs + ys, env, m, fuel) == Build(xs, env, m, fuel)
    decreases |ys|
  {
    if ys == [] {
      assert xs + ys == xs;
    } else {
      var ys' := ys[..|ys| - 1];
      assert (xs + ys)[..|xs + ys| - 1] == xs + ys';
      BuildStops(xs, ys', env, m, fuel);
    }
  }

  /** A value that is not a formula text is merged in and leads to no
      further lookup. */
  lemma VisitPlainValue(cell: string, env: Env, m: Sheets, fuel: nat, a: Answer)
    requires Answers(env, cell, a) && !BuildContext.IsFormulaValue(a.value)
    ensures Visit(cell, env, m, fuel)
         == Outcome(BuildContext.Built, MergeEntry(m, a.sheet, env.toAbsCoord(a.text).value, a.value), [cell])
  {
  }

  /** A formula that names no cell leads to no further lookup either: the
      recursion happens only when the materials are not empty. The build
      still rejects when a range handler rejected during the parse. */
  lemma VisitNoMaterials(cell: string, env: Env, m: Sheets, fuel: nat, a: Answer)
    requires Answers(env, cell, a) && BuildContext.IsFormulaValue(a.value)
    requires Materials(env.walk(a.value.s[1..]), env.parseRange) == []
    ensures var thrown := Rejection(env.walk(a.value.s[1..]), env.parseRange);
            Visit(cell, env, m, fuel)
              == Outcome(if thrown.Some? then BuildContext.Rejected(thrown.value) else BuildContext.Built,
                         MergeEntry(m, a.sheet, env.toAbsCoord(a.text).value, a.value), [cell])
  {
  }

  /** A throwing `toAbsCoord` leaves the build pending: nothing is merged and
      nothing more is looked up. */
  lemma AbsCoordThrowStalls(cell: string, env: Env, m: Sheets, fuel: nat, a: Answer)
    requires env.lookUp(cell) == Some(Ok(a)) && env.toAbsCoord(a.text).Err?
    ensures Visit(cell, env, m, fuel) == Outcome(BuildContext.Stalled, m, [cell])
  {
  }

  /** A range whose expansion throws rejects the build with that error, yet
      the labels the other handlers collected are still built into the
      context, as the source's callback goes on after its handler's `reject`. */
  lemma RangeThrowRejectsAfterBuilding(cell: string, env: Env, m: Sheets, fuel: nat, a: Answer, e: Error)
    requires Answers(env, cell, a) && BuildContext.IsFormulaValue(a.value)
    requires Rejection(env.walk(a.value.s[1..]), env.parseRange) == Some(e)
    requires fuel > 0
    ensures var materials := Materials(env.walk(a.value.s[1..]), env.parseRange);
            var o := Build(materials, env, Merged(m, env, a), fuel - 1);
            var r := Visit(cell, env, m, fuel);
            && (o.status.OutOfFuel? || r.status == BuildContext.Rejected(e))
            && r.context == o.context && r.fetched == [cell] + o.fetched
  {
    var materials := Materials(env.walk(a.value.s[1..]), env.parseRange);
    if materials == [] {
      assert Build(materials, env, Merged(m, env, a), fuel - 1) == Outcome(BuildContext.Built, Merged(m, env, a), []);
    } else {
      VisitBuildsMaterials(cell, env, m, fuel, a, materials, fuel - 1);
    }
  }

  /** The first range that throws names the error the build rejects with. */
  lemma {:induction false} RejectionIsFirstThrow(visits: seq<Visit>, parseRange: RangeParser, i: nat)
    requires i < |visits| && RangeThrow(visits[i], parseRange).Some?
    requires forall j | 0 <= j < i :: RangeThrow(visits[j], parseRange).None?
    ensures Rejection(visits, parseRange) == RangeThrow(visits[i], parseRange)
    decreases |visits|
  {
    if i < |visits| - 1 {
      var earlier := visits[..|visits| - 1];
      assert earlier[i] == visits[i];
      RejectionIsFirstThrow(earlier, parseRange, i);
    } else {
      RejectionNone(visits[..i], parseRange);
    }
  }

  /** A walk rejects nothing exactly when none of its ranges throws. */
  lemma {:induction false} RejectionNone(visits: seq<Visit>, parseRange: RangeParser)
    ensures Rejection(visits, parseRange).None? <==> forall j | 0 <= j < |visits| :: RangeThrow(visits[j], parseRange).None?
  {
    if visits != [] {
      var earlier := visits[..|visits| - 1];
      RejectionNone(earlier, parseRange);
      assert forall j | 0 <= j < |earlier| :: earlier[j] == visits[j];
    }
  }

  /** `lookUp` answers `cell` with `a`, whose label `toAbsCoord` turns into a key. */
  predicate Answers(env: Env, cell: string, a: Answer)
  {
    env.lookUp(cell) == Some(Ok(a)) && env.toAbsCoord(a.text).Ok?
  }

  /** The formula text of `a` names `cells`, and no range of it throws. */
  predicate Names(env: Env, a: Answer, cells: seq<string>)
    requires BuildContext.IsFormulaValue(a.value)
  {
    Materials(env.walk(a.value.s[1..]), env.parseRange) == cells && Rejection(env.walk(a.value.s[1..]), env.parseRange).None?
  }

  /** Where the answer for `label` is merged, if `lookUp` answers. */
  function KeyOf(env: Env, cell: string): Option<(int, string)>
  {
    match env.lookUp(cell)
    case Some(Ok(a)) => if env.toAbsCoord(a.text).Ok? then Some((a.sheet, env.toAbsCoord(a.text).value)) else None
    case _ => None
  }

  /** `m'` is `m` with entries added or replaced only where the answers for
      `labels` were merged: nothing is removed and every other entry keeps
      its value. */
  ghost predicate ChangedOnly(m: Sheets, m': Sheets, env: Env, labels: seq<string>)
  {
    && (forall s, l | Entry(m, s, l).Some? :: Entry(m', s, l).Some?)
    && (forall s, l | Entry(m', s, l) != Entry(m, s, l) ::
          exists i | 0 <= i < |labels| :: KeyOf(env, labels[i]) == Some((s, l)))
  }

  lemma ChangedOnlyTrans(env: Env, m1: Sheets, m2: Sheets, m3: Sheets, c1: seq<string>, c2: seq<string>)
    requires ChangedOnly(m1, m2, env, c1) && ChangedOnly(m2, m3, env, c2)
    ensures ChangedOnly(m1, m3, env, c1 + c2)
  {
    forall s, l | Entry(m3, s, l) != Entry(m1, s, l)
      ensures exists i | 0 <= i < |c1 + c2| :: KeyOf(env, (c1 + c2)[i]) == Some((s, l))
    {
      if Entry(m2, s, l) != Entry(m1, s, l) {
        var i :| 0 <= i < |c1| && KeyOf(env, c1[i]) == Some((s, l));
        assert (c1 + c2)[i] == c1[i];
      } else {
        var i :| 0 <= i < |c2| && KeyOf(env, c2[i]) == Some((s, l));
        assert (c1 + c2)[|c1| + i] == c2[i];
      }
    }
  }

  /** The context is changed in place, and only where the answers of the
      labels looked up are merged. */
  lemma {:induction false} BuildChangesOnlyFetched(entries: seq<string>, env: Env, m: Sheets, fuel: nat)
    ensures var o := Build(entries, env, m, fuel); ChangedOnly(m, o.context, env, o.fetched)
    decreases fuel, |entries|, 1
  {
    if entries != [] {
      var o := Build(entries[..|entries| - 1], env, m, fuel);
      BuildChangesOnlyFetched(entries[..|entries| - 1], env, m, fuel);
      if o.status.Built? {
        var p := Visit(entries[|entries| - 1], env, o.context, fuel);
        VisitChangesOnlyFetched(entries[|entries| - 1], env, o.context, fuel);
        ChangedOnlyTrans(env, m, o.context, p.context, o.fetched, p.fetched);
      }
    }
  }

  lemma {:induction false} VisitChangesOnlyFetched(cell: string, env: Env, m: Sheets, fuel: nat)
    ensures var o := Visit(cell, env, m, fuel); ChangedOnly(m, o.context, env, o.fetched)
    decreases fuel, 0, 0
  {
    var o := Visit(cell, env, m, fuel);
    match env.lookUp(cell)
    case None =>
    case Some(Err(_)) =>
    case Some(Ok(a)) =>
      if env.toAbsCoord(a.text).Ok? {
        var m' := MergeEntry(m, a.sheet, env.toAbsCoord(a.text).value, a.value);
        assert KeyOf(env, [cell][0]) == Some((a.sheet, env.toAbsCoord(a.text).value));
        assert ChangedOnly(m, m', env, [cell]);
        if BuildContext.IsFormulaValue(a.value) {
          var materials := Materials(env.walk(a.value.s[1..]), env.parseRange);
          if materials != [] && fuel > 0 {
            BuildChangesOnlyFetched(materials, env, m', fuel - 1);
            ChangedOnlyTrans(env, m, m', o.context, [cell], Build(materials, env, m', fuel - 1).fetched);
          }
        }
      }
  }

  // ---------------------------------------------------------------------
  // The example of test/unit/buildContext.test.js. The constants and lemmas
  // from here to `TableExample` are steps of that one proof (sequence and
  // map identities over the test's labels); they state nothing about the
  // builder beyond the example.
  // ---------------------------------------------------------------------

  /** The sheet-1 entries of test/unit/buildContext.test.js, as they stand
      after A2, then after each of A1..E1 is merged in. */
  const AfterA2: map<string, Value> := map["$A$2" := Str("=SUM(A1:E1)")]
  const AfterA1: map<string, Value> := AfterA2["$A$1" := Str("1")]
  const AfterB1: map<string, Value> := AfterA1["$B$1" := Str("2")]
  const AfterC1: map<string, Value> := AfterB1["$C$1" := Str("=SUM(D1,E1)")]
  const AfterD1: map<string, Value> := AfterC1["$D$1" := Str("10")]
  const AfterE1: map<string, Value> := AfterD1["$E$1" := Str("20")]

  /** The collaborators of test/unit/buildContext.test.js: the lookup
      answers as the test's table does, `toAbsCoord` leaves absolute labels
      as they are, the range `A1:E1` expands to `A1`..`E1` as
      test/unit/parseRange.test.js expects, and `SUM(D1,E1)` names D1, E1. */
  predicate AnswersAsTable(env: Env, start: ParserReference, end: ParserReference,
                           d: ParserReference, e: ParserReference)
  {
    && env.lookUp("1!A2") == Some(Ok(Answer(1, "$A$2", Str("=SUM(A1:E1)"))))
    && env.lookUp("A1") == Some(Ok(Answer(1, "$A$1", Str("1"))))
    && env.lookUp("B1") == Some(Ok(Answer(1, "$B$1", Str("2"))))
    && env.lookUp("C1") == Some(Ok(Answer(1, "$C$1", Str("=SUM(D1,E1)"))))
    && env.lookUp("D1") == Some(Ok(Answer(1, "$D$1", Str("10"))))
    && env.lookUp("E1") == Some(Ok(Answer(1, "$E$1", Str("20"))))
    && env.toAbsCoord("$A$2") == Ok("$A$2") && env.toAbsCoord("$A$1") == Ok("$A$1") && env.toAbsCoord("$B$1") == Ok("$B$1")
    && env.toAbsCoord("$C$1") == Ok("$C$1") && env.toAbsCoord("$D$1") == Ok("$D$1") && env.toAbsCoord("$E$1") == Ok("$E$1")
    && env.walk("SUM(A1:E1)") == [RangeValue(start, end)]
    && env.parseRange(start, end) == Ok(["A1", "B1", "C1", "D1", "E1"])
    && env.walk("SUM(D1,E1)") == [CellValue(d), CellValue(e)] && d.text == "D1" && e.text == "E1"
  }

  /** The context after `lookUp`'s answer `a` is merged in. */
  function Merged(m: Sheets, env: Env, a: Answer): Sheets
    requires env.toAbsCoord(a.text).Ok?
  {
    MergeEntry(m, a.sheet, env.toAbsCoord(a.text).value, a.value)
  }

  /** Merging an entry that is already there, with the same value or with
      `undefined`, leaves the context as it is. */
  lemma MergeEntryPresent(m: Sheets, sheet: int, key: string, value: Value)
    requires Entry(m, sheet, key).Some? && (value.Undefined? || Entry(m, sheet, key) == Some(value))
    ensures MergeEntry(m, sheet, key, value) == m
  {
    if !value.Undefined? {
      assert m[sheet][key := value] == m[sheet];
    }
  }

  /** Two cells whose answers are merged again, after one another, leave the
      context as their first merge did, when they are stored apart. */
  lemma MergedAgain(m: Sheets, env: Env, x: Answer, y: Answer)
    requires env.toAbsCoord(x.text).Ok? && env.toAbsCoord(y.text).Ok?
    requires (x.sheet, env.toAbsCoord(x.text).value) != (y.sheet, env.toAbsCoord(y.text).value)
    ensures var once := Merged(Merged(m, env, x), env, y);
            Merged(Merged(once, env, x), env, y) == once
  {
    var once := Merged(Merged(m, env, x), env, y);
    MergeEntryPresent(once, x.sheet, env.toAbsCoord(x.text).value, x.value);
    MergeEntryPresent(once, y.sheet, env.toAbsCoord(y.text).value, y.value);
  }

  /** A build of two cells with plain values. */
  lemma BuildTwoPlain(x: string, y: string, env: Env, m: Sheets, fuel: nat, ax: Answer, ay: Answer)
    requires Answers(env, x, ax) && !BuildContext.IsFormulaValue(ax.value)
    requires Answers(env, y, ay) && !BuildContext.IsFormulaValue(ay.value)
    ensures Build([x, y], env, m, fuel) == Outcome(BuildContext.Built, Merged(Merged(m, env, ax), env, ay), [x, y])
  {
    var mx := Merged(m, env, ax);
    assert [x, y][..1] == [x] && [x][..0] == [] && [x, y][1] == y;
    VisitPlainValue(x, env, m, fuel, ax);
    assert Build([], env, m, fuel) == Outcome(BuildContext.Built, m, []);
    assert Build([x], env, m, fuel) == Outcome(BuildContext.Built, mx, [x]);
    VisitPlainValue(y, env, mx, fuel, ay);
  }

  /** Merging a defined value into sheet 1's map of a one-sheet context. */
  lemma MergedIntoSheet(inner: map<string, Value>, env: Env, a: Answer)
    requires !a.value.Undefined? && env.toAbsCoord(a.text).Ok?
    ensures Merged(map[a.sheet := inner], env, a) == map[a.sheet := inner[env.toAbsCoord(a.text).value := a.value]]
  {
  }

  /** A text that does not begin with `=` is not a formula. */
  lemma PlainText(text: string)
    requires |text| > 0 && text[0] != '='
    ensures !BuildContext.IsFormulaValue(Str(text))
  {
    assert text[..1] != "=" by {
      assert text[..1][0] == text[0];
    }
  }

  /** One more entry after a finished build, unfolded once. */
  lemma BuildSnoc(xs: seq<string>, x: string, env: Env, m: Sheets, fuel: nat)
    requires Build(xs, env, m, fuel).status.Built?
    ensures var o := Build(xs, env, m, fuel);
            var p := Visit(x, env, o.context, fuel);
            Build(xs + [x], env, m, fuel) == Outcome(p.status, p.context, o.fetched + p.fetched)
  {
    assert (xs + [x])[..|xs|] == xs;
  }

  /** The third cell of the test's range: a formula naming the last two. */
  lemma InnerFormula(c2: string, c3: string, c4: string, env: Env, m: Sheets, fuel: nat, a2: Answer, a3: Answer, a4: Answer)
    requires fuel >= 1
    requires Answers(env, c2, a2) && BuildContext.IsFormulaValue(a2.value)
    requires Names(env, a2, [c3, c4])
    requires Answers(env, c3, a3) && !BuildContext.IsFormulaValue(a3.value)
    requires Answers(env, c4, a4) && !BuildContext.IsFormulaValue(a4.value)
    ensures Visit(c2, env, m, fuel)
         == Outcome(BuildContext.Built, Merged(Merged(Merged(m, env, a2), env, a3), env, a4), [c2, c3, c4])
  {
    var m2 := Merged(m, env, a2);
    BuildTwoPlain(c3, c4, env, m2, fuel - 1, a3, a4);
    VisitFormulaBuilt(c2, env, m, fuel, a2, [c3, c4], Build([c3, c4], env, m2, fuel - 1));
  }

  /** A formula whose materials build to the end, and none of whose ranges
      throws, is built with them. */
  lemma VisitFormulaBuilt(cell: string, env: Env, m: Sheets, fuel: nat, a: Answer, materials: seq<string>, o: Outcome)
    requires Answers(env, cell, a) && BuildContext.IsFormulaValue(a.value)
    requires Names(env, a, materials) && materials != [] && fuel > 0
    requires Build(materials, env, Merged(m, env, a), fuel - 1) == o && o.status.Built?
    ensures Visit(cell, env, m, fuel) == Outcome(BuildContext.Built, o.context, [cell] + o.fetched)
  {
    VisitBuildsMaterials(cell, env, m, fuel, a, materials, fuel - 1);
  }

  /** The first three cells of the test's range: two plain values, then the
      formula naming the last two. */
  lemma RangeFirstThree(c0: string, c1: string, c2: string, c3: string, c4: string, env: Env, m: Sheets, fuel: nat,
                        a0: Answer, a1: Answer, a2: Answer, a3: Answer, a4: Answer)
    requires fuel >= 1
    requires Answers(env, c0, a0) && !BuildContext.IsFormulaValue(a0.value)
    requires Answers(env, c1, a1) && !BuildContext.IsFormulaValue(a1.value)
    requires Answers(env, c2, a2) && BuildContext.IsFormulaValue(a2.value)
    requires Names(env, a2, [c3, c4])
    requires Answers(env, c3, a3) && !BuildContext.IsFormulaValue(a3.value)
    requires Answers(env, c4, a4) && !BuildContext.IsFormulaValue(a4.value)
    ensures Build([c0, c1, c2], env, m, fuel)
         == Outcome(BuildContext.Built,
                    Merged(Merged(Merged(Merged(Merged(m, env, a0), env, a1), env, a2), env, a3), env, a4),
                    [c0, c1, c2, c3, c4])
  {
    BuildTwoPlain(c0, c1, env, m, fuel, a0, a1);
    InnerFormula(c2, c3, c4, env, Merged(Merged(m, env, a0), env, a1), fuel, a2, a3, a4);
    BuildSnoc([c0, c1], c2, env, m, fuel);
    assert [c0, c1] + [c2] == [c0, c1, c2];
  }

  /** The labels of the test's range, one appended at a time. */
  lemma AppendLiterals(c0: string, c1: string, c2: string, c3: string, c4: string)
    ensures [c0, c1, c2] + [c3] == [c0, c1, c2, c3]
    ensures [c0, c1, c2, c3] + [c4] == [c0, c1, c2, c3, c4]
    ensures [c0, c1, c2, c3, c4] + [c3] == [c0, c1, c2, c3, c4, c3]
    ensures [c0, c1, c2, c3, c4, c3] + [c4] == [c0, c1, c2, c3, c4, c3, c4]
  {
  }

  /** One more cell with a plain value after a finished build. */
  lemma BuildSnocPlain(xs: seq<string>, x: string, env: Env, m: Sheets, fuel: nat, a: Answer, o: Outcome)
    requires Build(xs, env, m, fuel) == o && o.status.Built?
    requires Answers(env, x, a) && !BuildContext.IsFormulaValue(a.value)
    ensures Build(xs + [x], env, m, fuel) == Outcome(BuildContext.Built, Merged(o.context, env, a), o.fetched + [x])
  {
    BuildSnoc(xs, x, env, m, fuel);
    VisitPlainValue(x, env, o.context, fuel, a);
  }

  /** A single root entry holding a formula: its materials are built one
      step of fuel lower, after its own value is merged. */
  lemma BuildFormulaRoot(root: string, env: Env, m: Sheets, fuel: nat, less: nat, r: Answer,
                          status: BuildContext.Status, ctx: Sheets, fetched: seq<string>, all: seq<string>)
    requires fuel == less + 1
    requires Answers(env, root, r) && BuildContext.IsFormulaValue(r.value)
    requires Materials(env.walk(r.value.s[1..]), env.parseRange) != [] && Rejection(env.walk(r.value.s[1..]), env.parseRange).None?
    requires Build(Materials(env.walk(r.value.s[1..]), env.parseRange), env, Merged(m, env, r), less)
          == Outcome(status, ctx, fetched)
    requires all == [root] + fetched
    ensures Build([root], env, m, fuel) == Outcome(status, ctx, all)
  {
    VisitBuildsMaterials(root, env, m, fuel, r, Materials(env.walk(r.value.s[1..]), env.parseRange), less);
    assert [root][..0] == [];
    assert Build([], env, m, fuel) == Outcome(BuildContext.Built, m, []);
  }

  /** The whole range of the test: the last two cells are fetched again and
      leave the context as it was. */
  lemma RangeAll(c0: string, c1: string, c2: string, c3: string, c4: string, env: Env, m: Sheets, fuel: nat,
                 a0: Answer, a1: Answer, a2: Answer, a3: Answer, a4: Answer)
    requires fuel >= 1
    requires Answers(env, c0, a0) && !BuildContext.IsFormulaValue(a0.value)
    requires Answers(env, c1, a1) && !BuildContext.IsFormulaValue(a1.value)
    requires Answers(env, c2, a2) && BuildContext.IsFormulaValue(a2.value)
    requires Names(env, a2, [c3, c4])
    requires Answers(env, c3, a3) && !BuildContext.IsFormulaValue(a3.value)
    requires Answers(env, c4, a4) && !BuildContext.IsFormulaValue(a4.value)
    requires (a3.sheet, env.toAbsCoord(a3.text).value) != (a4.sheet, env.toAbsCoord(a4.text).value)
    ensures Build([c0, c1, c2, c3, c4], env, m, fuel)
         == Outcome(BuildContext.Built,
                    Merged(Merged(Merged(Merged(Merged(m, env, a0), env, a1), env, a2), env, a3), env, a4),
                    [c0, c1, c2, c3, c4, c3, c4])
  {
    var m2 := Merged(Merged(Merged(m, env, a0), env, a1), env, a2);
    var m4 := Merged(Merged(m2, env, a3), env, a4);
    var o3 := Outcome(BuildContext.Built, m4, [c0, c1, c2, c3, c4]);
    RangeFirstThree(c0, c1, c2, c3, c4, env, m, fuel, a0, a1, a2, a3, a4);
    BuildSnocPlain([c0, c1, c2], c3, env, m, fuel, a3, o3);
    AppendLiterals(c0, c1, c2, c3, c4);
    var o4 := Outcome(BuildContext.Built, Merged(m4, env, a3), [c0, c1, c2, c3, c4, c3]);
    BuildSnocPlain([c0, c1, c2, c3], c4, env, m, fuel, a4, o4);
    MergedAgain(m2, env, a3, a4);
  }

  /** One label put before seven others. */
  lemma PrependEight(x: string, y0: string, y1: string, y2: string, y3: string, y4: string, y5: string, y6: string)
    ensures [x] + [y0, y1, y2, y3, y4, y5, y6] == [x, y0, y1, y2, y3, y4, y5, y6]
  {
  }

  /** The shape of test/unit/buildContext.test.js over any labels: a root
      formula names five cells; the third is a formula naming the last two,
      which are stored apart; the others hold plain values. Every answer is
      merged once, in order, and the last two cells are fetched twice. */
  lemma RangeWithInnerFormula(root: string, c0: string, c1: string, c2: string, c3: string, c4: string,
                              env: Env, m: Sheets, fuel: nat,
                              r: Answer, a0: Answer, a1: Answer, a2: Answer, a3: Answer, a4: Answer)
    requires fuel >= 2
    requires Answers(env, root, r) && BuildContext.IsFormulaValue(r.value)
    requires Names(env, r, [c0, c1, c2, c3, c4])
    requires Answers(env, c0, a0) && !BuildContext.IsFormulaValue(a0.value)
    requires Answers(env, c1, a1) && !BuildContext.IsFormulaValue(a1.value)
    requires Answers(env, c2, a2) && BuildContext.IsFormulaValue(a2.value)
    requires Names(env, a2, [c3, c4])
    requires Answers(env, c3, a3) && !BuildContext.IsFormulaValue(a3.value)
    requires Answers(env, c4, a4) && !BuildContext.IsFormulaValue(a4.value)
    requires (a3.sheet, env.toAbsCoord(a3.text).value) != (a4.sheet, env.toAbsCoord(a4.text).value)
    ensures Build([root], env, m, fuel)
         == Outcome(BuildContext.Built,
                    Merged(Merged(Merged(Merged(Merged(Merged(m, env, r), env, a0), env, a1), env, a2), env, a3), env, a4),
                    [root, c0, c1, c2, c3, c4, c3, c4])
  {
    var less: nat := fuel - 1;
    var mr := Merged(m, env, r);
    var ctx := Merged(Merged(Merged(Merged(Merged(mr, env, a0), env, a1), env, a2), env, a3), env, a4);
    var fetched := [c0, c1, c2, c3, c4, c3, c4];
    RangeAll(c0, c1, c2, c3, c4, env, mr, less, a0, a1, a2, a3, a4);
    BuildFormulaRoot(root, env, m, fuel, less, r, BuildContext.Built, ctx, fetched, [root] + fetched);
    PrependEight(root, c0, c1, c2, c3, c4, c3, c4);
  }

  /** The sheet-1 map of test/unit/buildContext.test.js, from the merges. */
  lemma TableMerges(env: Env)
    requires env.toAbsCoord("$A$2") == Ok("$A$2") && env.toAbsCoord("$A$1") == Ok("$A$1") && env.toAbsCoord("$B$1") == Ok("$B$1")
    requires env.toAbsCoord("$C$1") == Ok("$C$1") && env.toAbsCoord("$D$1") == Ok("$D$1") && env.toAbsCoord("$E$1") == Ok("$E$1")
    ensures Merged(Merged(Merged(Merged(Merged(Merged(map[], env, Answer(1, "$A$2", Str("=SUM(A1:E1)"))),
              env, Answer(1, "$A$1", Str("1"))), env, Answer(1, "$B$1", Str("2"))),
              env, Answer(1, "$C$1", Str("=SUM(D1,E1)"))), env, Answer(1, "$D$1", Str("10"))),
              env, Answer(1, "$E$1", Str("20")))
         == map[1 := AfterE1]
  {
    var m1 := Merged(map[], env, Answer(1, "$A$2", Str("=SUM(A1:E1)")));
    assert m1 == map[1 := AfterA2];
    MergedIntoSheet(AfterA2, env, Answer(1, "$A$1", Str("1")));
    var m2 := Merged(m1, env, Answer(1, "$A$1", Str("1")));
    MergedIntoSheet(AfterA1, env, Answer(1, "$B$1", Str("2")));
    var m3 := Merged(m2, env, Answer(1, "$B$1", Str("2")));
    MergedIntoSheet(AfterB1, env, Answer(1, "$C$1", Str("=SUM(D1,E1)")));
    var m4 := Merged(m3, env, Answer(1, "$C$1", Str("=SUM(D1,E1)")));
    MergedIntoSheet(AfterC1, env, Answer(1, "$D$1", Str("10")));
    var m5 := Merged(m4, env, Answer(1, "$D$1", Str("10")));
    MergedIntoSheet(AfterD1, env, Answer(1, "$E$1", Str("20")));
  }

  /** The example of test/unit/buildContext.test.js: building from `1!A2`
      fills sheet 1 with A2 and A1..E1 and nothing else (F1 and G1 are never
      looked up); D1 and E1 are fetched twice, once through C1's formula. */
  lemma TableExample(env: Env, fuel: nat, start: ParserReference, end: ParserReference,
                     d: ParserReference, e: ParserReference)
    requires AnswersAsTable(env, start, end, d, e) && fuel >= 2
    ensures Build(["1!A2"], env, map[], fuel)
         == Outcome(BuildContext.Built, map[1 := AfterE1], ["1!A2", "A1", "B1", "C1", "D1", "E1", "D1", "E1"])
  {
    var cells := ["A1", "B1", "C1", "D1", "E1"];
    assert "=SUM(A1:E1)"[1..] == "SUM(A1:E1)" && "=SUM(D1,E1)"[1..] == "SUM(D1,E1)";
    assert Materials([RangeValue(start, end)], env.parseRange) == cells;
    assert Rejection([RangeValue(start, end)], env.parseRange) == None;
    assert Rejection([CellValue(d), CellValue(e)], env.parseRange) == None by {
      assert [CellValue(d), CellValue(e)][..1] == [CellValue(d)];
    }
    assert Materials([CellValue(d), CellValue(e)], env.parseRange) == ["D1", "E1"] by {
      MaterialsOfCells([CellValue(d), CellValue(e)], env.parseRange);
    }
    assert "$D$1"[1] != "$E$1"[1];
    assert BuildContext.IsFormulaValue(Str("=SUM(A1:E1)"));
    assert BuildContext.IsFormulaValue(Str("=SUM(D1,E1)"));
    PlainText("1");
    PlainText("2");
    PlainText("10");
    PlainText("20");
    assert (1, env.toAbsCoord("$D$1").value) != (1, env.toAbsCoord("$E$1").value);
    RangeWithInnerFormula("1!A2", "A1", "B1", "C1", "D1", "E1", env, map[], fuel,
                          Answer(1, "$A$2", Str("=SUM(A1:E1)")), Answer(1, "$A$1", Str("1")), Answer(1, "$B$1", Str("2")),
                          Answer(1, "$C$1", Str("=SUM(D1,E1)")), Answer(1, "$D$1", Str("10")), Answer(1, "$E$1", Str("20")));
    TableMerges(env);
  }
}
