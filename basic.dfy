/** The `InputState` channels of src/basic.ts, their reducers, the length router
    and the linear graph START -> branch_a -> branch_b -> END. */
module Basic {
  import opened Messages

  /** The state. `unchangedValue` has no reducer: an update that carries it replaces it. */
  datatype InputState = InputState(
    unchangedValue: Option<string>,
    stringValue: string,
    numericValue: int,
    listValue: seq<string>)

  /** Reducer of `stringValue`: the template `${cur}${upd}`. */
  function ConcatStrings(cur: string, upd: string): string
  {
    cur + upd
  }

  /** Reducer of `numericValue`. */
  function AddNumbers(cur: int, upd: int): int
  {
    cur + upd
  }

  /** Reducer of `listValue`: `cur.concat(upd)`. */
  function ConcatLists(cur: seq<string>, upd: seq<string>): seq<string>
  {
    cur + upd
  }

  /** Every channel at its declared default: "", 0 and []. */
  const Defaults: InputState := InputState(None, "", 0, [])

  /** Folds updates into `cur` one at a time, as successive node updates do. */
  function Fold<T>(reduce: (T, T) -> T, cur: T, updates: seq<T>): T
    decreases |updates|
  {
    if updates == [] then cur else Fold(reduce, reduce(cur, updates[0]), updates[1..])
  }

  ghost predicate Associative<T(!new)>(reduce: (T, T) -> T)
  {
    forall a, b, c :: reduce(reduce(a, b), c) == reduce(a, reduce(b, c))
  }

  ghost predicate Identity<T(!new)>(reduce: (T, T) -> T, unit: T)
  {
    forall a :: reduce(unit, a) == a && reduce(a, unit) == a
  }

  /** For an associative reducer with an identity, folding updates one at a
      time equals reducing once by the combined update. */
  lemma {:induction false} FoldIsCombinedUpdate<T(!new)>(reduce: (T, T) -> T, unit: T, cur: T, updates: seq<T>)
    requires Associative(reduce) && Identity(reduce, unit)
    ensures Fold(reduce, cur, updates) == reduce(cur, Fold(reduce, unit, updates))
    decreases |updates|
  {
    if updates != [] {
      var u, rest := updates[0], updates[1..];
      FoldIsCombinedUpdate(reduce, unit, reduce(cur, u), rest);
      FoldIsCombinedUpdate(reduce, unit, reduce(unit, u), rest);
      assert reduce(unit, u) == u;
    } else {
      assert reduce(cur, unit) == cur;
    }
  }

  /** "" is a left and a right identity of the string reducer; it is associative;
      and the result is `cur` followed by `upd`. */
  lemma StringReducerLaws(cur: string, upd: string, more: string)
    ensures ConcatStrings("", upd) == upd && ConcatStrings(cur, "") == cur
    ensures ConcatStrings(ConcatStrings(cur, upd), more) == ConcatStrings(cur, ConcatStrings(upd, more))
    ensures |ConcatStrings(cur, upd)| == |cur| + |upd|
    ensures ConcatStrings(cur, upd)[..|cur|] == cur && ConcatStrings(cur, upd)[|cur|..] == upd
  {
  }

  /** 0 is an identity of the numeric reducer, which is associative. */
  lemma NumericReducerLaws(cur: int, upd: int, more: int)
    ensures AddNumbers(0, upd) == upd && AddNumbers(cur, 0) == cur
    ensures AddNumbers(AddNumbers(cur, upd), more) == AddNumbers(cur, AddNumbers(upd, more))
  {
  }

  /** [] is an identity of the list reducer, which is associative and keeps
      both lists in order. */
  lemma ListReducerLaws(cur: seq<string>, upd: seq<string>, more: seq<string>)
    ensures ConcatLists([], upd) == upd && ConcatLists(cur, []) == cur
    ensures ConcatLists(ConcatLists(cur, upd), more) == ConcatLists(cur, ConcatLists(upd, more))
    ensures |ConcatLists(cur, upd)| == |cur| + |upd|
    ensures forall i :: 0 <= i < |cur| ==> ConcatLists(cur, upd)[i] == cur[i]
    ensures forall j :: 0 <= j < |upd| ==> ConcatLists(cur, upd)[|cur| + j] == upd[j]
  {
  }

  /** Folding string updates appends all of them, in order. */
  lemma FoldStrings(cur: string, updates: seq<string>)
    ensures Fold(ConcatStrings, cur, updates) == cur + Fold(ConcatStrings, "", updates)
  {
    assert Associative(ConcatStrings) by {
      forall a: string, b: string, c: string
        ensures ConcatStrings(ConcatStrings(a, b), c) == ConcatStrings(a, ConcatStrings(b, c))
      {
      }
    }
    assert Identity(ConcatStrings, "") by {
      forall a: string
        ensures ConcatStrings("", a) == a && ConcatStrings(a, "") == a
      {
      }
    }
    FoldIsCombinedUpdate(ConcatStrings, "", cur, updates);
  }

  /** Folding numeric updates adds their sum. */
  lemma FoldNumbers(cur: int, updates: seq<int>)
    ensures Fold(AddNumbers, cur, updates) == cur + Fold(AddNumbers, 0, updates)
  {
    FoldIsCombinedUpdate(AddNumbers, 0, cur, updates);
  }

  /** Folding list updates concatenates all of them, in order. */
  lemma FoldLists(cur: seq<string>, updates: seq<seq<string>>)
    ensures Fold(ConcatLists, cur, updates) == cur + Fold(ConcatLists, [], updates)
  {
    assert Associative(ConcatLists) by {
      forall a: seq<string>, b: seq<string>, c: seq<string>
        ensures ConcatLists(ConcatLists(a, b), c) == ConcatLists(a, ConcatLists(b, c))
      {
      }
    }
    assert Identity(ConcatLists, []) by {
      forall a: seq<string>
        ensures ConcatLists([], a) == a && ConcatLists(a, []) == a
      {
      }
    }
    FoldIsCombinedUpdate(ConcatLists, [], cur, updates);
  }

  /** How a node's returned state is merged into the current one: each channel
      with a reducer is reduced, `unchangedValue` is replaced when present. */
  function Apply(cur: InputState, upd: InputState): (r: InputState)
  {
    InputState(
      if upd.unchangedValue.Some? then upd.unchangedValue else cur.unchangedValue,
      ConcatStrings(cur.stringValue, upd.stringValue),
      AddNumbers(cur.numericValue, upd.numericValue),
      ConcatLists(cur.listValue, upd.listValue))
  }

  /** The defaults are an identity for merging: invoking the graph with an input
      starts from exactly that input. */
  lemma DefaultsAreIdentity(s: InputState)
    ensures Apply(Defaults, s) == s
    ensures Apply(s, Defaults) == s
  {
  }

  /** `modifyState`: logs and returns its input. */
  function ModifyState(input: InputState): (r: InputState)
    ensures r == input
  {
    input
  }

  datatype Node = BranchA | BranchB | End

  /** `router`: back to branch_a while `stringValue` is shorter than 5, else END. */
  function Router(s: InputState): (r: Node)
    ensures r == BranchA <==> |s.stringValue| < 5
    ensures r != BranchA ==> r == End
  {
    if |s.stringValue| < 5 then BranchA else End
  }

  /** The graph's edges; the conditional edge through `Router` is commented out. */
  const Entry: Node := BranchA

  function Next(n: Node): Node
  {
    match n
    case BranchA => BranchB
    case BranchB => End
    case End => End
  }

  function Rank(n: Node): nat
  {
    match n
    case BranchA => 2
    case BranchB => 1
    case End => 0
  }

  datatype Run = Run(final: InputState, trace: seq<Node>)

  /** Runs the graph from node `n`: each node's result is merged into the state. */
  function Execute(n: Node, s: InputState): Run
    decreases Rank(n)
  {
    if n == End then Run(s, [])
    else
      var s' := Apply(s, ModifyState(s));
      var rest := Execute(Next(n), s');
      Run(rest.final, [n] + rest.trace)
  }

  /** Every run visits branch_a then branch_b and stops, whatever `Router` would
      say; since each node hands back the whole state, each reducing channel is
      merged with itself twice. */
  lemma LinearRun(s: InputState)
    ensures Execute(Entry, s).trace == [BranchA, BranchB]
    ensures var f := Execute(Entry, s).final;
      && f.unchangedValue == s.unchangedValue
      && f.stringValue == s.stringValue + s.stringValue + s.stringValue + s.stringValue
      && f.numericValue == 4 * s.numericValue
      && f.listValue == s.listValue + s.listValue + s.listValue + s.listValue
  {
    var s1 := Apply(s, ModifyState(s));
    var s2 := Apply(s1, ModifyState(s1));
    assert Execute(Entry, s) == Run(s2, [BranchA, BranchB]);
  }
}
