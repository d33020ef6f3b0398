/**
 * The binder's scope: an ordered list of column bindings, renamed by table
 * aliases and searched when a column reference is resolved.
 */
module BindContext {
  import opened Common

  /** Scalar expressions and relational operators are opaque here. */
  datatype Scalar = Scalar(id: nat)
  datatype SExpr = SExpr(id: nat)

  datatype ColumnBinding = ColumnBinding(
    tableName: Option<string>,
    columnName: string,
    index: nat,
    dataType: DataType,
    scalar: Option<Scalar>)

  /** `t AS name(columns...)`, with the identifiers already in display form. */
  datatype TableAlias = TableAlias(name: string, columns: seq<string>)

  /** Whether `b` answers the reference `table.column` (or bare `column`). */
  predicate Matches(b: ColumnBinding, table: Option<string>, column: string) {
    match table
    case Some(t) => b.tableName == Some(t) && b.columnName == column
    case None => b.columnName == column
  }

  /** The bindings answering a reference, in binding order. */
  function Candidates(cols: seq<ColumnBinding>, table: Option<string>, column: string): (r: seq<ColumnBinding>)
    ensures |r| <= |cols|
    ensures forall b :: b in r ==> b in cols && Matches(b, table, column)
    ensures forall i :: 0 <= i < |cols| && Matches(cols[i], table, column) ==> cols[i] in r
  {
    if |cols| == 0 then []
    else
      var rest := Candidates(cols[..|cols| - 1], table, column);
      var last := cols[|cols| - 1];
      if Matches(last, table, column) then rest + [last] else rest
  }

  /** No candidate exactly when no binding matches. */
  lemma NoCandidates(cols: seq<ColumnBinding>, table: Option<string>, column: string)
    ensures |Candidates(cols, table, column)| == 0 <==>
              forall i :: 0 <= i < |cols| ==> !Matches(cols[i], table, column)
  {
    if exists i :: 0 <= i < |cols| && Matches(cols[i], table, column) {
      var i :| 0 <= i < |cols| && Matches(cols[i], table, column);
      assert cols[i] in Candidates(cols, table, column);
    }
  }

  /** A binding that alone matches is the one and only candidate. */
  lemma {:induction false} SoleMatch(cols: seq<ColumnBinding>, table: Option<string>, column: string, i: nat)
    requires i < |cols| && Matches(cols[i], table, column)
    requires forall j :: 0 <= j < |cols| && j != i ==> !Matches(cols[j], table, column)
    ensures Candidates(cols, table, column) == [cols[i]]
  {
    var front := cols[..|cols| - 1];
    if i == |cols| - 1 {
      NoCandidates(front, table, column);
    } else {
      assert forall j :: 0 <= j < |front| && j != i ==> front[j] == cols[j];
      SoleMatch(front, table, column, i);
    }
  }

  /** Two matching bindings make at least two candidates. */
  lemma {:induction false} TwoMatches(cols: seq<ColumnBinding>, table: Option<string>, column: string, i: nat, j: nat)
    requires i < j < |cols| && Matches(cols[i], table, column) && Matches(cols[j], table, column)
    ensures |Candidates(cols, table, column)| >= 2
  {
    var front := cols[..|cols| - 1];
    if j == |cols| - 1 {
      assert front[i] == cols[i];
      assert cols[i] in Candidates(front, table, column);
    } else {
      assert front[i] == cols[i] && front[j] == cols[j];
      TwoMatches(front, table, column, i, j);
    }
  }

  /** Binding `i` matches the reference and no other binding does. */
  predicate UniqueMatch(cols: seq<ColumnBinding>, table: Option<string>, column: string, i: nat) {
    i < |cols| && Matches(cols[i], table, column) &&
    forall j :: 0 <= j < |cols| && j != i ==> !Matches(cols[j], table, column)
  }

  /** The reference resolves exactly when one binding, and no other, matches it. */
  lemma ResolvesUniquely(cols: seq<ColumnBinding>, table: Option<string>, column: string)
    ensures |Candidates(cols, table, column)| == 1 <==> exists i: nat :: UniqueMatch(cols, table, column, i)
  {
    var r := Candidates(cols, table, column);
    if |r| == 1 {
      assert r[0] in cols;
      var i :| 0 <= i < |cols| && cols[i] == r[0];
      assert UniqueMatch(cols, table, column, i) by {
        forall j | 0 <= j < |cols| && j != i
          ensures !Matches(cols[j], table, column)
        {
          if Matches(cols[j], table, column) {
            if i < j { TwoMatches(cols, table, column, i, j); }
            else { TwoMatches(cols, table, column, j, i); }
          }
        }
      }
    }
    if exists i: nat :: UniqueMatch(cols, table, column, i) {
      var i: nat :| UniqueMatch(cols, table, column, i);
      SoleMatch(cols, table, column, i);
    }
  }

  /** `result_columns`: `(index, column_name)` per binding, in order. */
  function ProjectColumns(cols: seq<ColumnBinding>): (r: seq<(nat, string)>)
    ensures |r| == |cols|
    ensures forall i :: 0 <= i < |cols| ==> r[i].0 == cols[i].index && r[i].1 == cols[i].columnName
  {
    if |cols| == 0 then []
    else [(cols[0].index, cols[0].columnName)] + ProjectColumns(cols[1..])
  }

  function NotExist(column: string): ErrorCode {
    SemanticError("column \"" + column + "\" doesn't exist")
  }

  function Ambiguous(column: string): ErrorCode {
    SemanticError("column reference \"" + column + "\" is ambiguous")
  }

  function TooManyAliasColumns(available: nat, specified: nat): ErrorCode {
    SemanticError("table has " + NatToString(available) + " columns available but "
                  + NatToString(specified) + " columns specified")
  }

  class BindContext {
    var parent: BindContext?
    var columns: seq<ColumnBinding>
    /** The relational operator of this scope. */
    var expression: Option<SExpr>
    /** Aggregate scalar expressions of this scope. */
    var aggScalarExprs: Option<seq<Scalar>>

    /** `new` (the derived `Default`): no parent, no columns, nothing bound. */
    constructor ()
      ensures parent == null && columns == [] && expression.None? && aggScalarExprs.None?
    {
      parent := null;
      columns := [];
      expression := None;
      aggScalarExprs := None;
    }

    /** `new_with_parent`: an empty scope over `p`. */
    constructor WithParent(p: BindContext)
      ensures parent == p && columns == [] && expression.None? && aggScalarExprs.None?
    {
      parent := p;
      columns := [];
      expression := None;
      aggScalarExprs := None;
    }

    /** `push`: a new empty scope whose parent is this one, left as it was. */
    method Push() returns (child: BindContext)
      ensures fresh(child)
      ensures child.parent == this && child.columns == []
      ensures child.expression.None? && child.aggScalarExprs.None?
    {
      child := new BindContext.WithParent(this);
    }

    /** `all_column_bindings`: the bindings in the order they were added. */
    function AllColumnBindings(): (s: seq<ColumnBinding>)
      reads this
      ensures s == columns
    {
      columns
    }

    /** `add_column_binding`: appends, leaving the earlier bindings alone. */
    method AddColumnBinding(b: ColumnBinding)
      modifies this
      ensures AllColumnBindings() == old(AllColumnBindings()) + [b]
      ensures parent == old(parent) && expression == old(expression) && aggScalarExprs == old(aggScalarExprs)
    {
      columns := columns + [b];
    }

    /** `apply_table_alias`: every binding of table `originalName` moves to
        the alias's name; then, if the alias does not list more columns than
        there are, the first |alias.columns| bindings take the alias's column
        names. The renaming of tables stays in place when the column check
        fails. */
    method ApplyTableAlias(originalName: string, alias: TableAlias) returns (r: Result<(), ErrorCode>)
      modifies this
      ensures parent == old(parent) && expression == old(expression) && aggScalarExprs == old(aggScalarExprs)
      ensures |columns| == |old(columns)|
      ensures forall i :: 0 <= i < |columns| ==>
                columns[i].tableName == (if old(columns)[i].tableName == Some(originalName)
                                         then Some(alias.name) else old(columns)[i].tableName)
      ensures forall i :: 0 <= i < |columns| ==>
                columns[i].index == old(columns)[i].index && columns[i].dataType == old(columns)[i].dataType &&
                columns[i].scalar == old(columns)[i].scalar
      ensures r.Err? <==> |alias.columns| > |old(columns)|
      ensures r.Err? ==> r.error == TooManyAliasColumns(|old(columns)|, |alias.columns|)
      ensures forall i :: 0 <= i < |columns| ==>
                columns[i].columnName == (if r.Ok? && i < |alias.columns| then alias.columns[i]
                                          else old(columns)[i].columnName)
    {
      var i := 0;
      while i < |columns|
        invariant 0 <= i <= |columns| == |old(columns)|
        invariant parent == old(parent) && expression == old(expression) && aggScalarExprs == old(aggScalarExprs)
        invariant forall k :: 0 <= k < |columns| ==>
                    columns[k] == (if k < i && old(columns)[k].tableName == Some(originalName)
                                   then old(columns)[k].(tableName := Some(alias.name)) else old(columns)[k])
      {
        if columns[i].tableName == Some(originalName) {
          columns := columns[i := columns[i].(tableName := Some(alias.name))];
        }
        i := i + 1;
      }
      if |alias.columns| > |columns| {
        return Err(TooManyAliasColumns(|columns|, |alias.columns|));
      }
      ghost var renamed := columns;
      var index := 0;
      while index < |alias.columns|
        invariant 0 <= index <= |alias.columns| <= |columns| == |renamed|
        invariant parent == old(parent) && expression == old(expression) && aggScalarExprs == old(aggScalarExprs)
        invariant forall k :: 0 <= k < |columns| ==>
                    columns[k] == (if k < index then renamed[k].(columnName := alias.columns[k]) else renamed[k])
      {
        columns := columns[index := columns[index].(columnName := alias.columns[index])];
        index := index + 1;
      }
      r := Ok(());
    }

    /** `resolve_column`: collects the matching bindings in order; none is
        "doesn't exist", more than one is "ambiguous", exactly one is the answer. */
    method ResolveColumn(table: Option<string>, column: string) returns (r: Result<ColumnBinding, ErrorCode>)
      ensures var c := Candidates(columns, table, column);
              (|c| == 0 ==> r == Err(NotExist(column))) &&
              (|c| > 1 ==> r == Err(Ambiguous(column))) &&
              (|c| == 1 ==> r == Ok(c[0]))
    {
      var result: seq<ColumnBinding> := [];
      var i := 0;
      while i < |columns|
        invariant 0 <= i <= |columns|
        invariant result == Candidates(columns[..i], table, column)
      {
        assert columns[..i + 1][..i] == columns[..i];
        var b := columns[i];
        match table {
          case Some(t) =>
            if b.tableName.Some? && b.tableName.value == t && b.columnName == column {
              result := result + [b];
            }
          case None =>
            if b.columnName == column {
              result := result + [b];
            }
        }
        i := i + 1;
      }
      assert columns[..i] == columns;
      if |result| == 0 {
        r := Err(NotExist(column));
      } else if |result| > 1 {
        r := Err(Ambiguous(column));
      } else {
        r := Ok(result[0]);
      }
    }

    /** `result_columns`. */
    function ResultColumns(): (r: seq<(nat, string)>)
      reads this
      ensures |r| == |columns|
      ensures forall i :: 0 <= i < |columns| ==> r[i] == (columns[i].index, columns[i].columnName)
    {
      ProjectColumns(columns)
    }
  }

  /** Resolving a reference succeeds exactly when one binding, and no other,
      answers it, and then returns that binding. */
  method ResolveColumnUnique(ctx: BindContext, table: Option<string>, column: string)
    returns (r: Result<ColumnBinding, ErrorCode>)
    ensures r.Ok? <==> exists i: nat :: UniqueMatch(ctx.columns, table, column, i)
    ensures r.Ok? ==> r.value in ctx.columns && Matches(r.value, table, column)
    ensures r.Err? ==> r.error == NotExist(column) || r.error == Ambiguous(column)
  {
    r := ctx.ResolveColumn(table, column);
    ResolvesUniquely(ctx.columns, table, column);
    var c := Candidates(ctx.columns, table, column);
    if |c| == 1 {
      assert c[0] in c;
    }
  }
}
