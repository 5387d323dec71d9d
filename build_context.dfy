/** lib/build-context.ts: the dependency walk that fills a flat context map.
    Every root is looked up; its value is stored under the reference's
    `toString()`; a formula value sends the walk on to the formula's operand
    cells, into the same map. There is no visited set, so a cell reached along
    two paths is fetched twice, and a cycle recurses until the stack
    overflows: `fuel` bounds the depth of the walk, and running out of it
    stands for that overflow. A handler that throws while the operands are
    collected is caught by the parser, so the only rejections are a lookup
    error and the rejection of a nested build. */
module BuildContext {
  import opened Errors
  import opened Text
  import opened Values
  import Coordinate
  import Formula
  import Sheet
  import opened FormulaParser

  /** What `lookUp` does for a cell: calls `done` with an error, with a value,
      or never calls it (then the walk waits forever). */
  type LookUp = Coordinate.Reference -> Option<Result<Value>>

  /** The collaborators of a build: the lookup, the operand cells of a
      formula, and the key a cell is stored under. The properties below hold
      for any of these (the last one given that keys identify cells); the
      source's are `getOperandCells` and `toString()`, as `EnvOf` puts them. */
  datatype Env = Env(lookUp: LookUp,
                     operandsOf: Formula.Formula -> seq<Coordinate.Reference>,
                     keyOf: Coordinate.Reference -> string)

  /** The build's collaborators for a parser walk and a range expansion. */
  function EnvOf(lookUp: LookUp, walk: Walk, toArray: Coordinate.Range -> Result<seq<Coordinate.Reference>>): Env
  {
    Env(lookUp,
        (f: Formula.Formula) => Formula.OperandCells(f.sheet, walk(f.formula), toArray),
        Coordinate.ToString)
  }

  /** Distinct cells are stored under distinct keys. */
  ghost predicate KeysIdentifyCells(env: Env)
  {
    forall a: Coordinate.Reference, b: Coordinate.Reference | env.keyOf(a) == env.keyOf(b) :: a == b
  }

  lemma EnvOfKeysIdentifyCells(lookUp: LookUp, walk: Walk, toArray: Coordinate.Range -> Result<seq<Coordinate.Reference>>)
    ensures KeysIdentifyCells(EnvOf(lookUp, walk, toArray))
  {
    forall a: Coordinate.Reference, b: Coordinate.Reference | Coordinate.ToString(a) == Coordinate.ToString(b)
      ensures a == b
    {
      Coordinate.ToStringInjective(a, b);
    }
  }

  datatype Status =
    | Built              // the promise resolves
    | Rejected(error: Error)
    | Stalled            // a lookup never answered: the promise never settles
    | OutOfFuel          // the walk went deeper than the fuel allows

  /** Where a build ends: its status, the context map as it then stands, and
      the cells looked up, in order. */
  datatype Outcome = Outcome(status: Status, context: map<string, Value>, fetched: seq<Coordinate.Reference>)

  /** The value text of a formula cell, without the sigil. */
  predicate IsFormulaValue(v: Value)
  {
    v.Str? && Formula.IsFormula(v.s)
  }

  /** The build of `entries` in order, from the context `m`. */
  function Build(entries: seq<Coordinate.Reference>, env: Env, m: map<string, Value>, fuel: nat): (r: Outcome)
    ensures entries != [] ==> r.fetched != []
    decreases fuel, |entries|, 1
  {
    if entries == [] then Outcome(Built, m, [])
    else
      var o := Build(entries[..|entries| - 1], env, m, fuel);
      if !o.status.Built? then o
      else
        var p := Visit(entries[|entries| - 1], env, o.context, fuel);
        Outcome(p.status, p.context, o.fetched + p.fetched)
  }

  /** One iteration of the loop: look the cell up, store its value, and build
      the operands of a formula value. */
  function Visit(cell: Coordinate.Reference, env: Env, m: map<string, Value>, fuel: nat): (r: Outcome)
    ensures r.fetched != [] && r.fetched[0] == cell
    decreases fuel, 0, 0
  {
    match env.lookUp(cell)
    case None => Outcome(Stalled, m, [cell])
    case Some(Err(e)) => Outcome(Rejected(e), m, [cell])
    case Some(Ok(v)) =>
      var m' := m[env.keyOf(cell) := v];
      if !IsFormulaValue(v) then Outcome(Built, m', [cell])
      else
        var f := Formula.From(v.s, Formula.SheetValue(cell.sheet)).value;
        var operands := env.operandsOf(f);
        if operands == [] then Outcome(Built, m', [cell])
        else if fuel == 0 then Outcome(OutOfFuel, m', [cell])
        else
          var o := Build(operands, env, m', fuel - 1);
          Outcome(o.status, o.context, [cell] + o.fetched)
  }

  /** The context object the caller passes in; the build writes into it. */
  class Context {
    var cells: map<string, Value>

    constructor (initial: map<string, Value>)
      ensures cells == initial
    {
      cells := initial;
    }
  }

  /** `buildContext(entries, lookUp, context)`: the roots one after the other;
      the context is changed in place and is what the promise resolves to. */
  method BuildContext(entries: seq<Coordinate.Reference>, lookUp: LookUp, walk: Walk,
                      toArray: Coordinate.Range -> Result<seq<Coordinate.Reference>>, context: Context, fuel: nat)
    returns (status: Status, fetched: seq<Coordinate.Reference>)
    modifies context
    ensures Outcome(status, context.cells, fetched) == Build(entries, EnvOf(lookUp, walk, toArray), old(context.cells), fuel)
    decreases fuel, |entries|, 1
  {
    var env := EnvOf(lookUp, walk, toArray);
    fetched := [];
    var i := 0;
    while i < |entries|
      invariant 0 <= i <= |entries|
      invariant Build(entries[..i], env, old(context.cells), fuel) == Outcome(Built, context.cells, fetched)
    {
      BuildStep(entries, i, env, old(context.cells), fuel);
      var s, f := LookUpCell(entries[i], lookUp, walk, toArray, context, fuel);
      fetched := fetched + f;
      if !s.Built? {
        BuildStops(entries[..i + 1], entries[i + 1..], env, old(context.cells), fuel);
        PrefixSplit(entries, i + 1);
        return s, fetched;
      }
      i := i + 1;
    }
    PrefixSplit(entries, i);
    status := Built;
  }

  /** One more root: a build that has not stopped visits it next. */
  lemma BuildStep(entries: seq<Coordinate.Reference>, i: nat, env: Env, m: map<string, Value>, fuel: nat)
    requires i < |entries|
    ensures var o := Build(entries[..i], env, m, fuel);
      Build(entries[..i + 1], env, m, fuel)
        == if !o.status.Built? then o
           else var p := Visit(entries[i], env, o.context, fuel); Outcome(p.status, p.context, o.fetched + p.fetched)
  {
    assert entries[..i + 1][..i] == entries[..i];
  }

  /** The body of the loop for one cell: the `lookUp` callback. */
  method LookUpCell(cell: Coordinate.Reference, lookUp: LookUp, walk: Walk,
                    toArray: Coordinate.Range -> Result<seq<Coordinate.Reference>>, context: Context, fuel: nat)
    returns (status: Status, fetched: seq<Coordinate.Reference>)
    modifies context
    ensures Outcome(status, context.cells, fetched) == Visit(cell, EnvOf(lookUp, walk, toArray), old(context.cells), fuel)
    decreases fuel, 0, 0
  {
    var env := EnvOf(lookUp, walk, toArray);
    ghost var m := context.cells;
    fetched := [cell];
    var answer := lookUp(cell);
    assert answer == env.lookUp(cell);
    if answer.None? {
      return Stalled, fetched;
    }
    if answer.value.Err? {
      return Rejected(answer.value.error), fetched;
    }
    var value := answer.value.value;
    context.cells := context.cells[env.keyOf(cell) := value];
    ghost var m' := context.cells;
    if !IsFormulaValue(value) {
      assert Visit(cell, env, m, fuel) == Outcome(Built, m', [cell]);
      return Built, fetched;
    }
    var formula := Formula.From(value.s, Formula.SheetValue(cell.sheet)).value;
    var operands := Formula.GetOperandCells(formula, walk, toArray);
    assert operands == env.operandsOf(formula);
    if operands == [] {
      assert Visit(cell, env, m, fuel) == Outcome(Built, m', [cell]);
      return Built, fetched;
    }
    if fuel == 0 {
      assert Visit(cell, env, m, fuel) == Outcome(OutOfFuel, m', [cell]);
      return OutOfFuel, fetched;
    }
    var less: nat := fuel - 1;
    VisitFormula(cell, env, m, fuel, value, operands, less);
    var s, f := BuildContext(operands, lookUp, walk, toArray, context, less);
    status, fetched := s, fetched + f;
  }

  /** `Visit` of a formula cell whose operands are not empty, unfolded once. */
  lemma VisitFormula(cell: Coordinate.Reference, env: Env, m: map<string, Value>, fuel: nat, v: Value,
                     operands: seq<Coordinate.Reference>, less: nat)
    requires env.lookUp(cell) == Some(Ok(v)) && IsFormulaValue(v)
    requires env.operandsOf(Formula.From(v.s, Formula.SheetValue(cell.sheet)).value) == operands
    requires operands != [] && fuel == less + 1
    ensures var o := Build(operands, env, m[env.keyOf(cell) := v], less);
            Visit(cell, env, m, fuel) == Outcome(o.status, o.context, [cell] + o.fetched)
  {
  }

  // ---------------------------------------------------------------------
  // Properties
  // ---------------------------------------------------------------------

  /** A build that stops on a prefix of the roots stops there for good. */
  lemma BuildStops(xs: seq<Coordinate.Reference>, ys: seq<Coordinate.Reference>, env: Env, m: map<string, Value>, fuel: nat)
    requires !Build(xs, env, m, fuel).status.Built?
    ensures Build(xs + ys, env, m, fuel) == Build(xs, env, m, fuel)
  {
    BuildSequential(xs, ys, env, m, fuel);
  }

  /** Roots are built one after the other, in order: building `xs + ys` is
      building `xs`, then `ys` from the context `xs` left, with the lookups
      of both in order; a build that does not finish `xs` goes no further. */
  lemma {:induction false} BuildSequential(xs: seq<Coordinate.Reference>, ys: seq<Coordinate.Reference>, env: Env,
                                           m: map<string, Value>, fuel: nat)
    ensures !Build(xs, env, m, fuel).status.Built? ==> Build(xs + ys, env, m, fuel) == Build(xs, env, m, fuel)
    ensures Build(xs, env, m, fuel).status.Built? ==>
      var o := Build(xs, env, m, fuel);
      var p := Build(ys, env, o.context, fuel);
      Build(xs + ys, env, m, fuel) == Outcome(p.status, p.context, o.fetched + p.fetched)
    decreases |ys|
  {
    var o := Build(xs, env, m, fuel);
    if ys == [] {
      assert xs + ys == xs;
      assert o.fetched + [] == o.fetched;
    } else {
      var ys' := ys[..|ys| - 1];
      var last := ys[|ys| - 1];
      DropLastOfJoin(xs, ys);
      BuildSequential(xs, ys', env, m, fuel);
      var prefix := Build(xs + ys', env, m, fuel);
      assert Build(xs + ys, env, m, fuel) == (
        if !prefix.status.Built? then prefix
        else
          var q := Visit(last, env, prefix.context, fuel);
          Outcome(q.status, q.context, prefix.fetched + q.fetched));
      if o.status.Built? {
        var p' := Build(ys', env, o.context, fuel);
        assert Build(ys, env, o.context, fuel) == (
          if !p'.status.Built? then p'
          else
            var q := Visit(last, env, p'.context, fuel);
            Outcome(q.status, q.context, p'.fetched + q.fetched));
        if p'.status.Built? {
          assert prefix.context == p'.context;
          var q := Visit(last, env, p'.context, fuel);
          AppendAssociates(o.fetched, p'.fetched, q.fetched);
        }
      }
    }
  }

  /** An empty entry list returns the context unchanged, with no lookup. */
  lemma BuildNothing(env: Env, m: map<string, Value>, fuel: nat)
    ensures Build([], env, m, fuel) == Outcome(Built, m, [])
  {
  }

  /** A root whose value is not a formula text is stored under its
      `toString()` key and leads to no further lookup. */
  lemma VisitPlainValue(cell: Coordinate.Reference, env: Env, m: map<string, Value>, fuel: nat, v: Value)
    requires env.lookUp(cell) == Some(Ok(v)) && !IsFormulaValue(v)
    ensures Visit(cell, env, m, fuel) == Outcome(Built, m[env.keyOf(cell) := v], [cell])
  {
  }

  /** A lookup error rejects the whole build, whatever comes after it. */
  lemma LookUpErrorRejects(xs: seq<Coordinate.Reference>, cell: Coordinate.Reference, ys: seq<Coordinate.Reference>,
                           env: Env, m: map<string, Value>, fuel: nat, e: Error)
    requires Build(xs, env, m, fuel).status.Built?
    requires env.lookUp(cell) == Some(Err(e))
    ensures Build(xs + [cell] + ys, env, m, fuel).status == Rejected(e)
  {
    BuildSequential(xs, [cell], env, m, fuel);
    assert [cell][..0] == [];
    BuildSequential(xs + [cell], ys, env, m, fuel);
  }

  /** The keys of the cells looked up. */
  function KeysOf(env: Env, cells: seq<Coordinate.Reference>): (keys: seq<string>)
    ensures |keys| == |cells| && forall i | 0 <= i < |cells| :: keys[i] == env.keyOf(cells[i])
  {
    seq(|cells|, i requires 0 <= i < |cells| => env.keyOf(cells[i]))
  }

  /** `m'` is `m` with entries added or replaced only under the given keys. */
  predicate ChangedOnly(m: map<string, Value>, m': map<string, Value>, keys: seq<string>)
  {
    && (forall k | k in m :: k in m')
    && (forall k | k in m' && k !in keys :: k in m && m'[k] == m[k])
  }

  lemma ChangedOnlyTrans(env: Env, m1: map<string, Value>, m2: map<string, Value>, m3: map<string, Value>,
                         c1: seq<Coordinate.Reference>, c2: seq<Coordinate.Reference>)
    requires ChangedOnly(m1, m2, KeysOf(env, c1)) && ChangedOnly(m2, m3, KeysOf(env, c2))
    ensures ChangedOnly(m1, m3, KeysOf(env, c1 + c2))
  {
    assert KeysOf(env, c1 + c2) == KeysOf(env, c1) + KeysOf(env, c2);
  }

  /** The context is changed in place and only under the keys of the cells
      looked up: no entry is removed, and every other entry keeps its value. */
  lemma {:induction false} BuildChangesOnlyFetched(entries: seq<Coordinate.Reference>, env: Env, m: map<string, Value>, fuel: nat)
    ensures var o := Build(entries, env, m, fuel); ChangedOnly(m, o.context, KeysOf(env, o.fetched))
    decreases fuel, |entries|, 1
  {
    if entries != [] {
      var o := Build(entries[..|entries| - 1], env, m, fuel);
      BuildChangesOnlyFetched(entries[..|entries| - 1], env, m, fuel);
      if o.status.Built? {
        var p := Visit(entries[|entries| - 1], env, o.context, fuel);
        VisitChangesOnlyFetched(entries[|entries| - 1], env, o.context, fuel);
        ChangedOnlyTrans(env, m, o.context, p.context, o.fetched, p.fetched);
      }
    }
  }

  lemma {:induction false} VisitChangesOnlyFetched(cell: Coordinate.Reference, env: Env, m: map<string, Value>, fuel: nat)
    ensures var o := Visit(cell, env, m, fuel); ChangedOnly(m, o.context, KeysOf(env, o.fetched))
    decreases fuel, 0, 0
  {
    var o := Visit(cell, env, m, fuel);
    assert KeysOf(env, [cell]) == [env.keyOf(cell)];
    match env.lookUp(cell)
    case None =>
    case Some(Err(_)) =>
    case Some(Ok(v)) =>
      var m' := m[env.keyOf(cell) := v];
      if IsFormulaValue(v) {
        var f := Formula.From(v.s, Formula.SheetValue(cell.sheet)).value;
        var operands := env.operandsOf(f);
        if operands != [] && fuel > 0 {
          BuildChangesOnlyFetched(operands, env, m', fuel - 1);
          ChangedOnlyTrans(env, m, m', o.context, [cell], Build(operands, env, m', fuel - 1).fetched);
        }
      }
  }

  /** Every cell looked up in a finished build is in the context under its
      `toString()` key, with the value the lookup gave for it. Keys identify
      cells, so a cell fetched again overwrites its entry with the same value. */
  predicate Agrees(m: map<string, Value>, env: Env, fetched: seq<Coordinate.Reference>)
  {
    forall i | 0 <= i < |fetched| ::
      && env.lookUp(fetched[i]).Some? && env.lookUp(fetched[i]).value.Ok?
      && env.keyOf(fetched[i]) in m
      && m[env.keyOf(fetched[i])] == env.lookUp(fetched[i]).value.value
  }

  lemma AgreesAfter(m: map<string, Value>, m': map<string, Value>, env: Env,
                    before: seq<Coordinate.Reference>, after: seq<Coordinate.Reference>)
    requires Agrees(m, env, before) && Agrees(m', env, after)
    requires ChangedOnly(m, m', KeysOf(env, after))
    requires KeysIdentifyCells(env)
    ensures Agrees(m', env, before + after)
  {
    forall i | 0 <= i < |before|
      ensures env.keyOf(before[i]) in m'
      ensures m'[env.keyOf(before[i])] == env.lookUp(before[i]).value.value
    {
      var k := env.keyOf(before[i]);
      if k in KeysOf(env, after) {
        var j :| 0 <= j < |after| && KeysOf(env, after)[j] == k;
        assert before[i] == after[j];
      }
    }
  }

  lemma {:induction false} BuildAgrees(entries: seq<Coordinate.Reference>, env: Env, m: map<string, Value>, fuel: nat)
    requires KeysIdentifyCells(env)
    ensures var o := Build(entries, env, m, fuel); o.status.Built? ==> Agrees(o.context, env, o.fetched)
    decreases fuel, |entries|, 1
  {
    if entries != [] {
      var o := Build(entries[..|entries| - 1], env, m, fuel);
      BuildAgrees(entries[..|entries| - 1], env, m, fuel);
      if o.status.Built? {
        var p := Visit(entries[|entries| - 1], env, o.context, fuel);
        VisitAgrees(entries[|entries| - 1], env, o.context, fuel);
        if p.status.Built? {
          VisitChangesOnlyFetched(entries[|entries| - 1], env, o.context, fuel);
          AgreesAfter(o.context, p.context, env, o.fetched, p.fetched);
        }
      }
    }
  }

  lemma {:induction false} VisitAgrees(cell: Coordinate.Reference, env: Env, m: map<string, Value>, fuel: nat)
    requires KeysIdentifyCells(env)
    ensures var o := Visit(cell, env, m, fuel); o.status.Built? ==> Agrees(o.context, env, o.fetched)
    decreases fuel, 0, 0
  {
    var o := Visit(cell, env, m, fuel);
    match env.lookUp(cell)
    case None =>
    case Some(Err(_)) =>
    case Some(Ok(v)) =>
      var m' := m[env.keyOf(cell) := v];
      assert Agrees(m', env, [cell]);
      if IsFormulaValue(v) {
        var f := Formula.From(v.s, Formula.SheetValue(cell.sheet)).value;
        var operands := env.operandsOf(f);
        if operands != [] && fuel > 0 {
          var p := Build(operands, env, m', fuel - 1);
          BuildAgrees(operands, env, m', fuel - 1);
          if p.status.Built? {
            BuildChangesOnlyFetched(operands, env, m', fuel - 1);
            AgreesAfter(m', p.context, env, [cell], p.fetched);
          }
        }
      }
  }

  /** Fuel only cuts the walk short: a build that ends within some fuel ends
      the same way with any more fuel. */
  lemma {:induction false} BuildFuel(entries: seq<Coordinate.Reference>, env: Env, m: map<string, Value>, fuel: nat, more: nat)
    requires fuel <= more && Build(entries, env, m, fuel).status != OutOfFuel
    ensures Build(entries, env, m, more) == Build(entries, env, m, fuel)
    decreases fuel, |entries|, 1
  {
    if entries != [] {
      var o := Build(entries[..|entries| - 1], env, m, fuel);
      BuildFuel(entries[..|entries| - 1], env, m, fuel, more);
      if o.status.Built? {
        VisitFuel(entries[|entries| - 1], env, o.context, fuel, more);
      }
    }
  }

  lemma {:induction false} VisitFuel(cell: Coordinate.Reference, env: Env, m: map<string, Value>, fuel: nat, more: nat)
    requires fuel <= more && Visit(cell, env, m, fuel).status != OutOfFuel
    ensures Visit(cell, env, m, more) == Visit(cell, env, m, fuel)
    decreases fuel, 0, 0
  {
    match env.lookUp(cell)
    case None =>
    case Some(Err(_)) =>
    case Some(Ok(v)) =>
      var m' := m[env.keyOf(cell) := v];
      if IsFormulaValue(v) {
        var f := Formula.From(v.s, Formula.SheetValue(cell.sheet)).value;
        var operands := env.operandsOf(f);
        if operands != [] {
          BuildFuel(operands, env, m', fuel - 1, more - 1);
        }
      }
  }

  /** With the source's collaborators, a formula whose walk names only single
      cells of its own sheet has those cells as operands. */
  lemma EnvOfSingleCells(a: Coordinate.Reference, t: string, visits: seq<Visit>, refs: seq<Coordinate.Reference>,
                         lookUp: LookUp, walk: Walk, toArray: Coordinate.Range -> Result<seq<Coordinate.Reference>>)
    requires walk(t) == visits && |visits| == |refs|
    requires forall i | 0 <= i < |visits| ::
      visits[i].CellValue? && visits[i].cell.sheet == None && visits[i].cell.text == Coordinate.Label(refs[i])
    requires forall i | 0 <= i < |refs| :: refs[i].sheet == a.sheet
    ensures EnvOf(lookUp, walk, toArray).operandsOf(Formula.Formula(t, a.sheet)) == refs
  {
    Formula.OperandCellsOfLabels(a.sheet, visits, refs, toArray);
    OnSheetAlready(refs, a.sheet);
  }

  /** Moving references to the sheet they are on changes nothing. */
  lemma OnSheetAlready(refs: seq<Coordinate.Reference>, sheet: Sheet.Sheet)
    requires forall i | 0 <= i < |refs| :: refs[i].sheet == sheet
    ensures seq(|refs|, i requires 0 <= i < |refs| => refs[i].(sheet := sheet)) == refs
  {
  }

  /** No visited set: a formula naming the same cell twice makes two lookups
      of it, and the second write leaves the entry as the first made it. */
  lemma SharedOperandFetchedTwice(a: Coordinate.Reference, b: Coordinate.Reference, t: string,
                                  env: Env, m: map<string, Value>, fuel: nat, v: Value)
    requires env.lookUp(a) == Some(Ok(Str("=" + t)))
    requires env.operandsOf(Formula.Formula(t, a.sheet)) == [b, b]
    requires env.lookUp(b) == Some(Ok(v)) && !IsFormulaValue(v)
    requires fuel >= 1
    ensures Visit(a, env, m, fuel)
         == Outcome(Built, m[env.keyOf(a) := Str("=" + t)][env.keyOf(b) := v], [a, b, b])
  {
    Formula.FromStripsOneSigil(t, a.sheet);
    var m' := m[env.keyOf(a) := Str("=" + t)];
    var m'' := m'[env.keyOf(b) := v];
    assert [b, b][..1] == [b] && [b][..0] == [];
    VisitPlainValue(b, env, m', fuel - 1, v);
    VisitPlainValue(b, env, m'', fuel - 1, v);
    assert m''[env.keyOf(b) := v] == m'';
    assert Build([], env, m', fuel - 1) == Outcome(Built, m', []);
    assert [] + [b] == [b] && [b] + [b] == [b, b];
    var once := Build([b], env, m', fuel - 1);
    assert once.status == Built && once.context == m'' && once.fetched == [b];
    var twice := Build([b, b], env, m', fuel - 1);
    assert twice.status == Built && twice.context == m'' && twice.fetched == [b, b];
  }

  /** The same with the source's collaborators: `=SUM(B1,B1)` style formulas. */
  lemma SharedOperandFetchedTwiceByWalk(a: Coordinate.Reference, b: Coordinate.Reference, t: string, p: ParserReference,
                                        lookUp: LookUp, walk: Walk,
                                        toArray: Coordinate.Range -> Result<seq<Coordinate.Reference>>,
                                        m: map<string, Value>, fuel: nat, v: Value)
    requires lookUp(a) == Some(Ok(Str("=" + t)))
    requires walk(t) == [CellValue(p), CellValue(p)]
    requires p.sheet == None && p.text == Coordinate.Label(b) && b.sheet == a.sheet
    requires lookUp(b) == Some(Ok(v)) && !IsFormulaValue(v)
    requires fuel >= 1
    ensures Visit(a, EnvOf(lookUp, walk, toArray), m, fuel)
         == Outcome(Built, m[Coordinate.ToString(a) := Str("=" + t)][Coordinate.ToString(b) := v], [a, b, b])
  {
    EnvOfSingleCells(a, t, walk(t), [b, b], lookUp, walk, toArray);
    SharedOperandFetchedTwice(a, b, t, EnvOf(lookUp, walk, toArray), m, fuel, v);
  }

  /** A handler that throws while the operands are collected does not reject
      the build: with the source's collaborators, a formula whose only
      handler call throws (a range across sheets, a range `toArray` refuses)
      has no operands, and its cell is stored and the walk ends there. */
  lemma ThrowingHandlerStillBuilds(a: Coordinate.Reference, t: string, v: Visit,
                                   lookUp: LookUp, walk: Walk,
                                   toArray: Coordinate.Range -> Result<seq<Coordinate.Reference>>,
                                   m: map<string, Value>, fuel: nat)
    requires lookUp(a) == Some(Ok(Str("=" + t)))
    requires walk(t) == [v] && Formula.VisitCells(a.sheet, v, toArray).Err?
    ensures Visit(a, EnvOf(lookUp, walk, toArray), m, fuel)
         == Outcome(Built, m[Coordinate.ToString(a) := Str("=" + t)], [a])
  {
    Formula.FromStripsOneSigil(t, a.sheet);
    assert [] + [v] + [] == [v];
    Formula.ThrowEndsWalk([], v, [], Formula.CellsOf(a.sheet, toArray));
  }

  /** A cycle never finishes: a formula that names its own cell runs out of
      any fuel, as the source's recursion runs until the stack overflows. */
  lemma {:induction false} SelfReferenceNeverFinishes(a: Coordinate.Reference, t: string, env: Env,
                                                      m: map<string, Value>, fuel: nat)
    requires env.lookUp(a) == Some(Ok(Str("=" + t)))
    requires env.operandsOf(Formula.Formula(t, a.sheet)) == [a]
    ensures Visit(a, env, m, fuel).status == OutOfFuel
    decreases fuel
  {
    Formula.FromStripsOneSigil(t, a.sheet);
    if fuel > 0 {
      var m' := m[env.keyOf(a) := Str("=" + t)];
      SelfReferenceNeverFinishes(a, t, env, m', fuel - 1);
      assert [a][..0] == [];
      assert Build([], env, m', fuel - 1).status == Built;
      assert Build([a], env, m', fuel - 1).status == OutOfFuel;
    }
  }

  /** The same with the source's collaborators: a formula such as `=A1+1` in A1. */
  lemma SelfReferenceNeverFinishesByWalk(a: Coordinate.Reference, t: string, p: ParserReference,
                                         lookUp: LookUp, walk: Walk,
                                         toArray: Coordinate.Range -> Result<seq<Coordinate.Reference>>,
                                         m: map<string, Value>, fuel: nat)
    requires lookUp(a) == Some(Ok(Str("=" + t)))
    requires walk(t) == [CellValue(p)]
    requires p.sheet == None && p.text == Coordinate.Label(a)
    ensures Visit(a, EnvOf(lookUp, walk, toArray), m, fuel).status == OutOfFuel
  {
    EnvOfSingleCells(a, t, walk(t), [a], lookUp, walk, toArray);
    SelfReferenceNeverFinishes(a, t, EnvOf(lookUp, walk, toArray), m, fuel);
  }
}
