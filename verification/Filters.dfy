/**
 The query compiler of the PostgreSQL store: from a task filter to a WHERE clause with numbered placeholders
 and the list of their arguments. The clause is a syntax tree here; its text is not modelled.
 */
module Filters {
  import opened Wrappers

  /** Empty strings and lists, and missing times, stand for criteria that are not set. Times are in nanoseconds. */
  datatype Filter = Filter(
    queue: string, state: string, states: seq<string>, kind: string, search: string,
    createdAfter: Option<int>, createdBefore: Option<int>)

  /** The columns of a task row that a filter looks at. */
  datatype Row = Row(id: string, kind: string, queue: string, state: string, createdAt: int)

  datatype Column = QueueColumn | StateColumn | KindColumn | IdColumn

  /** `$n` is written as the number n. */
  datatype Condition =
    | Equal(column: Column, placeholder: nat)
    | OneOf(column: Column, placeholders: seq<nat>)
    | EitherLike(left: Column, leftPlaceholder: nat, right: Column, rightPlaceholder: nat)
    | AtLeast(placeholder: nat)
    | AtMost(placeholder: nat)

  datatype Argument = Text(text: string) | Time(time: int)

  function Field(row: Row, column: Column): string
  {
    match column
    case QueueColumn => row.queue
    case StateColumn => row.state
    case KindColumn => row.kind
    case IdColumn => row.id
  }

  predicate IsText(args: seq<Argument>, placeholder: nat)
  {
    1 <= placeholder <= |args| && args[placeholder - 1].Text?
  }

  predicate IsTime(args: seq<Argument>, placeholder: nat)
  {
    1 <= placeholder <= |args| && args[placeholder - 1].Time?
  }

  /** Every placeholder has an argument of the right type. */
  predicate WellTyped(c: Condition, args: seq<Argument>)
  {
    match c
    case Equal(_, n) => IsText(args, n)
    case OneOf(_, ns) => forall n :: n in ns ==> IsText(args, n)
    case EitherLike(_, m, _, n) => IsText(args, m) && IsText(args, n)
    case AtLeast(n) => IsTime(args, n)
    case AtMost(n) => IsTime(args, n)
  }

  /** What PostgreSQL makes of a condition. `like` is ILIKE. */
  predicate IsTrue(c: Condition, args: seq<Argument>, like: (string, string) -> bool, row: Row)
    requires WellTyped(c, args)
  {
    match c
    case Equal(column, n) => Field(row, column) == args[n - 1].text
    case OneOf(column, ns) => exists n :: n in ns && Field(row, column) == args[n - 1].text
    case EitherLike(left, m, right, n) =>
      like(Field(row, left), args[m - 1].text) || like(Field(row, right), args[n - 1].text)
    case AtLeast(n) => row.createdAt >= args[n - 1].time
    case AtMost(n) => row.createdAt <= args[n - 1].time
  }

  function Placeholders(c: Condition): seq<nat>
  {
    match c
    case Equal(_, n) => [n]
    case OneOf(_, ns) => ns
    case EitherLike(_, m, _, n) => [m, n]
    case AtLeast(n) => [n]
    case AtMost(n) => [n]
  }

  function AllPlaceholders(cs: seq<Condition>): seq<nat>
  {
    if cs == [] then [] else AllPlaceholders(cs[..|cs| - 1]) + Placeholders(cs[|cs| - 1])
  }

  /** The n numbers from start on. */
  function From(start: nat, n: nat): seq<nat>
  {
    seq(n, i => start + i)
  }

  /** The placeholders are 1 to the number of arguments, each used once, from left to right. */
  predicate Numbered(cs: seq<Condition>, args: seq<Argument>)
  {
    AllPlaceholders(cs) == From(1, |args|) && forall c :: c in cs ==> WellTyped(c, args)
  }

  /** The conditions are joined by AND. */
  predicate Selects(cs: seq<Condition>, args: seq<Argument>, like: (string, string) -> bool, row: Row)
    requires Numbered(cs, args)
  {
    forall c :: c in cs ==> IsTrue(c, args, like, row)
  }

  function Pattern(search: string): string
  {
    "%" + search + "%"
  }

  datatype Criterion = ByQueue | ByState | ByKind | BySearch | ByStart | ByEnd

  const CRITERIA := [ByQueue, ByState, ByKind, BySearch, ByStart, ByEnd]

  /** What the filter asks of a row in one respect. A list of states goes before a single state. */
  predicate Meets(f: Filter, criterion: Criterion, like: (string, string) -> bool, row: Row)
  {
    match criterion
    case ByQueue => f.queue == "" || row.queue == f.queue
    case ByState => if f.states != [] then row.state in f.states else f.state == "" || row.state == f.state
    case ByKind => f.kind == "" || row.kind == f.kind
    case BySearch => f.search == "" || like(row.id, Pattern(f.search)) || like(row.kind, Pattern(f.search))
    case ByStart => f.createdAfter.Some? ==> row.createdAt >= f.createdAfter.value
    case ByEnd => f.createdBefore.Some? ==> row.createdAt <= f.createdBefore.value
  }

  /** What the filter means. */
  predicate Matches(f: Filter, like: (string, string) -> bool, row: Row)
  {
    forall criterion :: Meets(f, criterion, like, row)
  }

  /** The conditions say what the filter asks in the first n respects, and the arguments fit them. */
  ghost predicate Compiles(f: Filter, n: nat, cs: seq<Condition>, args: seq<Argument>)
    requires n <= |CRITERIA|
  {
    Numbered(cs, args)
    && forall like, row :: Selects(cs, args, like, row) <==> forall k :: 0 <= k < n ==> Meets(f, CRITERIA[k], like, row)
  }

  lemma NothingCompiles(f: Filter)
    ensures Compiles(f, 0, [], [])
  {
  }

  /** An unset criterion needs no condition. */
  lemma SkipCriterion(f: Filter, n: nat, cs: seq<Condition>, args: seq<Argument>)
    requires n < |CRITERIA| && Compiles(f, n, cs, args)
    requires forall like, row :: Meets(f, CRITERIA[n], like, row)
    ensures Compiles(f, n + 1, cs, args)
  {
    hide Numbered, Selects, Meets;
  }

  /** A condition whose placeholders are the next numbers adds its own meaning and leaves that of the others alone. */
  lemma AddCriterion(f: Filter, n: nat, cs: seq<Condition>, args: seq<Argument>, c: Condition, more: seq<Argument>)
    requires n < |CRITERIA| && Compiles(f, n, cs, args)
    requires Placeholders(c) == From(|args| + 1, |more|) && WellTyped(c, args + more)
    requires forall like, row :: IsTrue(c, args + more, like, row) <==> Meets(f, CRITERIA[n], like, row)
    ensures Compiles(f, n + 1, cs + [c], args + more)
  {
    hide Meets, IsTrue, WellTyped;
    LongerIsNumbered(cs, args, c, more);
    forall like, row
      ensures Selects(cs + [c], args + more, like, row)
              <==> forall k :: 0 <= k < n + 1 ==> Meets(f, CRITERIA[k], like, row)
    {
      LongerSelects(cs, args, c, more, like, row);
    }
  }

  lemma LongerIsNumbered(cs: seq<Condition>, args: seq<Argument>, c: Condition, more: seq<Argument>)
    requires Numbered(cs, args) && WellTyped(c, args + more) && Placeholders(c) == From(|args| + 1, |more|)
    ensures Numbered(cs + [c], args + more)
  {
    assert (cs + [c])[..|cs + [c]| - 1] == cs;
    assert AllPlaceholders(cs + [c]) == From(1, |args + more|);
    forall x | x in cs + [c]
      ensures WellTyped(x, args + more)
    {
      assert x in cs || x == c;
    }
  }

  lemma LongerSelects(
    cs: seq<Condition>, args: seq<Argument>, c: Condition, more: seq<Argument>,
    like: (string, string) -> bool, row: Row)
    requires Numbered(cs, args) && Numbered(cs + [c], args + more) && WellTyped(c, args + more)
    ensures Selects(cs + [c], args + more, like, row)
            <==> Selects(cs, args, like, row) && IsTrue(c, args + more, like, row)
  {
    forall x | x in cs
      ensures x in cs + [c] && WellTyped(x, args + more)
      ensures IsTrue(x, args, like, row) <==> IsTrue(x, args + more, like, row)
    {
    }
    assert (cs + [c])[|cs|] == c;
    assert forall x :: x in cs + [c] ==> x in cs || x == c;
  }

  lemma AllCriteria(f: Filter, cs: seq<Condition>, args: seq<Argument>)
    requires Compiles(f, |CRITERIA|, cs, args)
    ensures Numbered(cs, args)
    ensures forall like, row :: Selects(cs, args, like, row) <==> Matches(f, like, row)
  {
    hide Numbered, Selects, Meets;
    forall like, row
      ensures (forall k :: 0 <= k < |CRITERIA| ==> Meets(f, CRITERIA[k], like, row)) <==> Matches(f, like, row)
    {
      forall criterion | forall k :: 0 <= k < |CRITERIA| ==> Meets(f, CRITERIA[k], like, row)
        ensures Meets(f, criterion, like, row)
      {
        var k := match criterion
          case ByQueue => 0
          case ByState => 1
          case ByKind => 2
          case BySearch => 3
          case ByStart => 4
          case ByEnd => 5;
        assert CRITERIA[k] == criterion;
      }
    }
  }

  function Texts(ss: seq<string>): seq<Argument>
  {
    seq(|ss|, i requires 0 <= i < |ss| => Text(ss[i]))
  }

  /** The query of ListTasks: it means what the filter means, for every row and every ILIKE. */
  method BuildList(f: Filter) returns (conditions: seq<Condition>, args: seq<Argument>)
    ensures Numbered(conditions, args)
    ensures forall like, row :: Selects(conditions, args, like, row) <==> Matches(f, like, row)
  {
    hide Compiles, Numbered, Selects;
    NothingCompiles(f);
    conditions, args := [], [];
    var argIdx := 1;
    if f.queue != "" {
      AddCriterion(f, 0, conditions, args, Equal(QueueColumn, argIdx), [Text(f.queue)]);
      conditions := conditions + [Equal(QueueColumn, argIdx)];
      args := args + [Text(f.queue)];
      argIdx := argIdx + 1;
    } else {
      SkipCriterion(f, 0, conditions, args);
    }
    conditions, args, argIdx := BuildState(f, conditions, args, argIdx);
    if f.kind != "" {
      AddCriterion(f, 2, conditions, args, Equal(KindColumn, argIdx), [Text(f.kind)]);
      conditions := conditions + [Equal(KindColumn, argIdx)];
      args := args + [Text(f.kind)];
      argIdx := argIdx + 1;
    } else {
      SkipCriterion(f, 2, conditions, args);
    }
    conditions, args, argIdx := BuildSearchAndDates(f, conditions, args, argIdx);
    AllCriteria(f, conditions, args);
  }

  /** Several states become one IN with a placeholder for each. */
  method BuildState(f: Filter, conditions0: seq<Condition>, args0: seq<Argument>, argIdx0: nat)
    returns (conditions: seq<Condition>, args: seq<Argument>, argIdx: nat)
    requires Compiles(f, 1, conditions0, args0) && argIdx0 == |args0| + 1
    ensures Compiles(f, 2, conditions, args) && argIdx == |args| + 1
  {
    hide Compiles;
    conditions, args, argIdx := conditions0, args0, argIdx0;
    if f.states != [] {
      var placeholders: seq<nat> := [];
      for i := 0 to |f.states|
        invariant placeholders == From(argIdx0, i)
        invariant args == args0 + Texts(f.states[..i]) && argIdx == |args| + 1
      {
        placeholders := placeholders + [argIdx];
        args := args + [Text(f.states[i])];
        argIdx := argIdx + 1;
        assert Texts(f.states[..i + 1]) == Texts(f.states[..i]) + [Text(f.states[i])];
      }
      assert f.states[..|f.states|] == f.states;
      StatesHold(f, args0, placeholders);
      AddCriterion(f, 1, conditions0, args0, OneOf(StateColumn, placeholders), Texts(f.states));
      conditions := conditions + [OneOf(StateColumn, placeholders)];
    } else if f.state != "" {
      AddCriterion(f, 1, conditions, args, Equal(StateColumn, argIdx), [Text(f.state)]);
      conditions := conditions + [Equal(StateColumn, argIdx)];
      args := args + [Text(f.state)];
      argIdx := argIdx + 1;
    } else {
      SkipCriterion(f, 1, conditions, args);
    }
  }

  lemma StatesHold(f: Filter, args: seq<Argument>, placeholders: seq<nat>)
    requires f.states != [] && placeholders == From(|args| + 1, |f.states|)
    ensures WellTyped(OneOf(StateColumn, placeholders), args + Texts(f.states))
    ensures forall like, row ::
              (IsTrue(OneOf(StateColumn, placeholders), args + Texts(f.states), like, row)
               <==> Meets(f, ByState, like, row))
  {
    forall row: Row | row.state in f.states
      ensures exists n :: n in placeholders && (args + Texts(f.states))[n - 1] == Text(row.state)
    {
      var i :| 0 <= i < |f.states| && f.states[i] == row.state;
      assert placeholders[i] in placeholders;
    }
  }

  method BuildSearchAndDates(f: Filter, conditions0: seq<Condition>, args0: seq<Argument>, argIdx0: nat)
    returns (conditions: seq<Condition>, args: seq<Argument>, argIdx: nat)
    requires Compiles(f, 3, conditions0, args0) && argIdx0 == |args0| + 1
    ensures Compiles(f, 6, conditions, args) && argIdx == |args| + 1
  {
    hide Compiles;
    conditions, args, argIdx := conditions0, args0, argIdx0;
    if f.search != "" {
      var search := "%" + f.search + "%";
      var condition := EitherLike(IdColumn, argIdx, KindColumn, argIdx + 1);
      AddCriterion(f, 3, conditions, args, condition, [Text(search), Text(search)]);
      conditions := conditions + [condition];
      args := args + [Text(search), Text(search)];
      argIdx := argIdx + 2;
    } else {
      SkipCriterion(f, 3, conditions, args);
    }
    if f.createdAfter.Some? {
      AddCriterion(f, 4, conditions, args, AtLeast(argIdx), [Time(f.createdAfter.value)]);
      conditions := conditions + [AtLeast(argIdx)];
      args := args + [Time(f.createdAfter.value)];
      argIdx := argIdx + 1;
    } else {
      SkipCriterion(f, 4, conditions, args);
    }
    if f.createdBefore.Some? {
      AddCriterion(f, 5, conditions, args, AtMost(argIdx), [Time(f.createdBefore.value)]);
      conditions := conditions + [AtMost(argIdx)];
      args := args + [Time(f.createdBefore.value)];
      argIdx := argIdx + 1;
    } else {
      SkipCriterion(f, 5, conditions, args);
    }
  }

  /** The part of a filter that CountTasks reads: not the list of states, the search or the dates. */
  function Counted(f: Filter): Filter
  {
    f.(states := [], search := "", createdAfter := None, createdBefore := None)
  }

  /** The query of CountTasks. */
  method BuildCount(f: Filter) returns (conditions: seq<Condition>, args: seq<Argument>)
    ensures Numbered(conditions, args)
    ensures forall like, row :: Selects(conditions, args, like, row) <==> Matches(Counted(f), like, row)
  {
    hide Compiles, Numbered, Selects;
    ghost var counted := Counted(f);
    NothingCompiles(counted);
    conditions, args := [], [];
    var argIdx := 1;
    if f.queue != "" {
      AddCriterion(counted, 0, conditions, args, Equal(QueueColumn, argIdx), [Text(f.queue)]);
      conditions := conditions + [Equal(QueueColumn, argIdx)];
      args := args + [Text(f.queue)];
      argIdx := argIdx + 1;
    } else {
      SkipCriterion(counted, 0, conditions, args);
    }
    if f.state != "" {
      AddCriterion(counted, 1, conditions, args, Equal(StateColumn, argIdx), [Text(f.state)]);
      conditions := conditions + [Equal(StateColumn, argIdx)];
      args := args + [Text(f.state)];
      argIdx := argIdx + 1;
    } else {
      SkipCriterion(counted, 1, conditions, args);
    }
    if f.kind != "" {
      AddCriterion(counted, 2, conditions, args, Equal(KindColumn, argIdx), [Text(f.kind)]);
      conditions := conditions + [Equal(KindColumn, argIdx)];
      args := args + [Text(f.kind)];
      argIdx := argIdx + 1;
    } else {
      SkipCriterion(counted, 2, conditions, args);
    }
    SkipCriterion(counted, 3, conditions, args);
    SkipCriterion(counted, 4, conditions, args);
    SkipCriterion(counted, 5, conditions, args);
    AllCriteria(counted, conditions, args);
  }

  /** The list of states is unset, or says no more than the single state does. */
  predicate StatesRedundant(f: Filter)
  {
    f.states == [] || (f.state != "" && forall s :: s in f.states ==> s == f.state)
  }

  /** A string that is longer than all those of a list. */
  lemma {:induction false} FreshString(ss: seq<string>) returns (s: string)
    ensures forall t :: t in ss ==> |t| < |s|
    decreases |ss|
  {
    if ss == [] {
      s := "";
    } else {
      var rest := FreshString(ss[1..]);
      s := rest + ss[0] + "x";
      forall t | t in ss
        ensures |t| < |s|
      {
        assert t == ss[0] || t in ss[1..];
      }
    }
  }

  /** A row that one of the two filters takes and the other does not. */
  lemma Disagreement(f: Filter, like: (string, string) -> bool) returns (row: Row)
    requires !(StatesRedundant(f) && f.search == "" && f.createdAfter.None? && f.createdBefore.None?)
    requires forall a, b :: !like(a, b)
    ensures Matches(f, like, row) <==> !Matches(Counted(f), like, row)
  {
    row := Row("", f.kind, f.queue, f.state, 0);
    if f.search != "" {
      assert !Meets(f, BySearch, like, row);
    } else if f.createdAfter.Some? {
      row := row.(createdAt := f.createdAfter.value - 1);
      assert !Meets(f, ByStart, like, row);
    } else if f.createdBefore.Some? {
      row := row.(createdAt := f.createdBefore.value + 1);
      assert !Meets(f, ByEnd, like, row);
    } else if f.state == "" {
      var other := FreshString(f.states);
      row := row.(state := other);
      assert !Meets(f, ByState, like, row);
    } else {
      var s :| s in f.states && s != f.state;
      row := row.(state := s);
      assert !Meets(Counted(f), ByState, like, row);
    }
  }

  /** Counting and listing agree on all rows exactly for the filters that set no more than CountTasks reads. */
  lemma CountAgreesWithList(f: Filter)
    ensures (forall like, row :: Matches(f, like, row) <==> Matches(Counted(f), like, row))
            <==> StatesRedundant(f) && f.search == "" && f.createdAfter.None? && f.createdBefore.None?
  {
    if StatesRedundant(f) && f.search == "" && f.createdAfter.None? && f.createdBefore.None? {
      forall like, row, criterion
        ensures Meets(f, criterion, like, row) <==> Meets(Counted(f), criterion, like, row)
      {
        assert f.states != [] ==> f.states[0] in f.states;
      }
    } else {
      var never := (a: string, b: string) => false;
      var row := Disagreement(f, never);
      assert !(Matches(f, never, row) <==> Matches(Counted(f), never, row));
    }
  }
}
