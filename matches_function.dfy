/** The `regexp_matches(value, pattern [, flags])` table function: one row per
    match of the pattern in the value, each row holding the match's group
    list. When the pattern is a literal the matcher is built once at compile
    time; otherwise every evaluation builds its own. */
module MatchesFunctions {
  import opened Wrappers
  import opened JavaTypes
  import opened RegexMatching

  /** An argument symbol as `compile` sees it: a literal (whose value may be
      null) or any other symbol. */
  datatype ArgSymbol = Literal(value: Option<string>) | NonLiteral

  /** The group list of one match: the value of a row's single column. */
  type Groups = seq<Option<string>>

  /** The flags `compile` takes from a literal third argument. */
  function LiteralFlags(arguments: seq<ArgSymbol>): Option<string>
    requires |arguments| == 3 ==> arguments[2].Literal?
  {
    if |arguments| == 3 then arguments[2].value else None
  }

  /** The flags `evaluate` takes from its third argument. */
  function EvaluatedFlags(args: seq<Option<string>>): Option<string>
  {
    if |args| == 3 then args[2] else None
  }

  /** A matcher fixed at compile time: its pattern and its global flag. */
  datatype Precompiled = Precompiled(pattern: Pattern, global: bool)

  /** The group lists `evaluate` returns, `None` standing for a null result:
      null when the value or the pattern is null, otherwise the matches of the
      precompiled matcher, or of one built from the pattern and the flags
      argument, in the value. */
  function Evaluation(pre: Option<Precompiled>, compile: Compiler, args: seq<Option<string>>)
    : Result<Option<seq<Groups>>, RegexError>
    requires |args| == 2 || |args| == 3
  {
    if args[0].None? || args[1].None? then Success(None)
    else match pre
      case Some(m) => Success(Matches(m.pattern, m.global, args[0].value))
      case None =>
        var pattern :- Compiled(compile, args[1].value, EvaluatedFlags(args));
        Success(Matches(pattern, IsGlobal(EvaluatedFlags(args)), args[0].value))
  }

  /** Compiling is transparent: when the arguments evaluate to the literals
      `compile` saw, the precompiled matcher gives the rows a matcher built
      during evaluation would give. */
  lemma PrecompiledAgreesWithOnTheFly(compile: Compiler, pattern: string, flags: Option<string>,
                                     args: seq<Option<string>>)
    requires |args| == 2 || |args| == 3
    requires args[1] == Some(pattern) && EvaluatedFlags(args) == flags
    requires Compiled(compile, pattern, flags).Success?
    ensures Evaluation(Some(Precompiled(Compiled(compile, pattern, flags).value, IsGlobal(flags))), compile, args)
         == Evaluation(None, compile, args)
  {
  }

  /** A row: a view of the column array it was built on. */
  class RowN {
    const cells: array<Option<Groups>>

    constructor (cells: array<Option<Groups>>)
      ensures this.cells == cells
    {
      this.cells := cells;
    }
  }

  /** The iterator over the rows of one evaluation. It hands out the same row
      object every time, after overwriting its single column. */
  class RowIterator {
    const rowGroups: seq<Groups>
    const columns: array<Option<Groups>>
    const row: RowN
    var idx: nat

    ghost predicate Valid()
      reads this, columns
    {
      columns.Length == 1 && row.cells == columns && idx <= |rowGroups|
      && (0 < idx ==> columns[0] == Some(rowGroups[idx - 1]))
    }

    constructor (rowGroups: seq<Groups>)
      ensures Valid() && fresh(columns) && fresh(row)
      ensures this.rowGroups == rowGroups && idx == 0 && columns[0] == None
    {
      this.rowGroups := rowGroups;
      var columns := new Option<Groups>[1](_ => None);
      this.columns := columns;
      row := new RowN(columns);
      idx := 0;
    }

    predicate HasNext()
      reads this
    {
      idx < |rowGroups|
    }

    /** `next()`: the row whose column now holds the next group list, or
        `NoSuchElementException` after the last one. */
    method Next() returns (r: Result<RowN, IterationError>)
      requires Valid()
      modifies this, columns
      ensures Valid()
      ensures old(idx) < |rowGroups| ==>
        r == Success(row) && columns[0] == Some(rowGroups[old(idx)]) && idx == old(idx) + 1
      ensures old(idx) == |rowGroups| ==>
        r == Failure(NoSuchElement) && idx == old(idx) && unchanged(columns)
    {
      if !HasNext() {
        return Failure(NoSuchElement);
      }
      columns[0] := Some(rowGroups[idx]);
      idx := idx + 1;
      return Success(row);
    }
  }

  /** The iterable `evaluate` returns: every iterator starts at the first
      group list. */
  class RowIterable {
    const rowGroups: seq<Groups>

    constructor (rowGroups: seq<Groups>)
      ensures this.rowGroups == rowGroups
    {
      this.rowGroups := rowGroups;
    }

    method Iterator() returns (it: RowIterator)
      ensures fresh(it) && fresh(it.columns) && it.Valid()
      ensures it.rowGroups == rowGroups && it.idx == 0
    {
      it := new RowIterator(rowGroups);
    }
  }

  class MatchesFunction {
    const regexMatcher: Option<RegexMatcher>

    constructor (regexMatcher: Option<RegexMatcher>)
      ensures this.regexMatcher == regexMatcher
    {
      this.regexMatcher := regexMatcher;
    }

    function PrecompiledOf(): Option<Precompiled>
    {
      if regexMatcher.None? then None
      else Some(Precompiled(regexMatcher.value.pattern, regexMatcher.value.globalFlag))
    }

    /** `compile(arguments)`: a literal non-null pattern gives a new function
        holding a matcher built from it and the literal flags; a null literal
        or a pattern that is not a literal gives this function back. */
    method Compile(compile: Compiler, arguments: seq<ArgSymbol>) returns (r: Result<MatchesFunction, RegexError>)
      requires |arguments| > 1
      requires |arguments| == 3 && arguments[1] != Literal(None) ==> arguments[2].Literal?
      ensures arguments[1] == Literal(None) || arguments[1].NonLiteral? ==> r == Success(this)
      ensures arguments[1].Literal? && arguments[1].value.Some? ==>
        var built := Compiled(compile, arguments[1].value.value, LiteralFlags(arguments));
        (built.Failure? ==> r == Failure(built.error))
        && (built.Success? ==>
              r.Success? && fresh(r.value) && r.value.regexMatcher.Some? && fresh(r.value.regexMatcher.value)
              && r.value.PrecompiledOf() == Some(Precompiled(built.value, IsGlobal(LiteralFlags(arguments)))))
    {
      var pattern: Option<string> := None;
      if arguments[1].Literal? {
        var patternVal := arguments[1].value;
        if patternVal.None? {
          return Success(this);
        }
        pattern := patternVal;
      }
      var flags: Option<string> := None;
      if |arguments| == 3 {
        flags := arguments[2].value;
      }
      if pattern.Some? {
        var matcher := NewRegexMatcher(compile, pattern.value, flags);
        if matcher.Failure? {
          return Failure(matcher.error);
        }
        var f := new MatchesFunction(Some(matcher.value));
        return Success(f);
      }
      return Success(this);
    }

    /** `evaluate(args)`: the rows of `Evaluation`, or null. A precompiled
        matcher is reused (and reset) by every evaluation. */
    method Evaluate(compile: Compiler, args: seq<Option<string>>)
      returns (r: Result<Option<RowIterable>, RegexError>)
      requires |args| == 2 || |args| == 3
      modifies if regexMatcher.Some? then {regexMatcher.value} else {}
      ensures args[0].None? || args[1].None? ==> r == Success(None)
      ensures var e := Evaluation(PrecompiledOf(), compile, args);
        (e.Failure? ==> r == Failure(e.error))
        && (e.Success? ==>
              r.Success? && (r.value.None? <==> e.value.None?)
              && (e.value.Some? ==> fresh(r.value.value) && r.value.value.rowGroups == e.value.value))
    {
      var value := args[0];
      var pattern := args[1];
      if value.None? || pattern.None? {
        return Success(None);
      }
      var matcher: RegexMatcher;
      if regexMatcher.None? {
        var flags: Option<string> := None;
        if |args| == 3 {
          flags := args[2];
        }
        var built := NewRegexMatcher(compile, pattern.value, flags);
        if built.Failure? {
          return Failure(built.error);
        }
        matcher := built.value;
      } else {
        matcher := regexMatcher.value;
      }
      var rowGroups := matcher.Match(value.value);
      if rowGroups.None? {
        return Success(None);
      }
      var rows := new RowIterable(rowGroups.value);
      return Success(Some(rows));
    }
  }
}
