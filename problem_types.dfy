/** Problem-type name resolution: `handle_problem_types` turns an enum value,
    a name, or an iterable of them into `ProblemTypes` members. */
module ProblemTypes {
  import opened Outcomes

  /** The members of the `ProblemTypes` enumeration. */
  datatype ProblemType =
    | Binary
    | Multiclass
    | Regression
    | TimeSeriesRegression
    | TimeSeriesBinary
    | TimeSeriesMulticlass

  /** The member's name: the key that `ProblemTypes[...]` looks up. */
  function Name(t: ProblemType): string {
    match t
    case Binary => "BINARY"
    case Multiclass => "MULTICLASS"
    case Regression => "REGRESSION"
    case TimeSeriesRegression => "TIME_SERIES_REGRESSION"
    case TimeSeriesBinary => "TIME_SERIES_BINARY"
    case TimeSeriesMulticlass => "TIME_SERIES_MULTICLASS"
  }

  /** `is_binary`: the binary problem types, plain or time series. */
  predicate IsBinary(t: ProblemType) {
    t == Binary || t == TimeSeriesBinary
  }

  /** `is_multiclass`: the multiclass problem types, plain or time series. */
  predicate IsMulticlass(t: ProblemType) {
    t == Multiclass || t == TimeSeriesMulticlass
  }

  /** `ProblemTypes[n]`: the member whose name is exactly `n`, if any. */
  function FromName(n: string): (r: Option<ProblemType>)
    ensures r.Some? ==> Name(r.value) == n
    ensures r.None? ==> forall t :: Name(t) != n
  {
    if n == "BINARY" then Some(Binary)
    else if n == "MULTICLASS" then Some(Multiclass)
    else if n == "REGRESSION" then Some(Regression)
    else if n == "TIME_SERIES_REGRESSION" then Some(TimeSeriesRegression)
    else if n == "TIME_SERIES_BINARY" then Some(TimeSeriesBinary)
    else if n == "TIME_SERIES_MULTICLASS" then Some(TimeSeriesMulticlass)
    else None
  }

  /** `str.upper()` on one character; only ASCII letters change case. */
  function UpperChar(c: char): char {
    if 'a' <= c <= 'z' then (c as int - 32) as char else c
  }

  /** `str.lower()` on one character; only ASCII letters change case. */
  function LowerChar(c: char): char {
    if 'A' <= c <= 'Z' then (c as int + 32) as char else c
  }

  function Upper(s: string): string {
    seq(|s|, i requires 0 <= i < |s| => UpperChar(s[i]))
  }

  /** The spelling of `n` in which the characters flagged in `lower` are lower case. */
  function Recased(n: string, lower: seq<bool>): string
    requires |lower| == |n|
  {
    seq(|n|, i requires 0 <= i < |n| => if lower[i] then LowerChar(n[i]) else n[i])
  }

  /** The case-insensitive lookup `ProblemTypes[s.upper()]`. */
  function Lookup(s: string): Option<ProblemType> {
    FromName(Upper(s))
  }

  /** The message of the KeyError raised for an unknown name. */
  function UnknownMessage(s: string): (m: string)
    ensures |m| == |s| + 30 && m[14..14 + |s|] == s
  {
    "Problem type '" + s + "' does not exist"
  }

  /** What a caller may pass: a member, a string, an iterable of values, or
      any other object that cannot be iterated (its type name kept for the message). */
  datatype Arg =
    | Type(t: ProblemType)
    | Str(s: string)
    | Iterable(items: seq<Arg>)
    | NotIterable(typeName: string)

  /** A bare member (returned unwrapped) or the list built by the loop. */
  datatype Resolved = Single(t: ProblemType) | Many(ts: seq<ProblemType>)

  /** An item the loop does not reject: anything but a string with an unknown name. */
  predicate Known(x: Arg) {
    x.Str? ==> Lookup(x.s).Some?
  }

  /** One pass of the loop body: a member is kept, a string is looked up,
      anything else is skipped (`None`). */
  function ResolveItem(x: Arg): Result<Option<ProblemType>> {
    match x
    case Type(t) => Ok(Some(t))
    case Str(s) =>
      (match Lookup(s)
       case Some(t) => Ok(Some(t))
       case None => Err(KeyError(UnknownMessage(s))))
    case _ => Ok(None)
  }

  /** The list the loop has built after the items `xs`, or the first KeyError. */
  function ResolveItems(xs: seq<Arg>): Result<seq<ProblemType>>
    decreases |xs|
  {
    if xs == [] then Ok([])
    else
      match ResolveItems(xs[..|xs| - 1])
      case Err(e) => Err(e)
      case Ok(ts) =>
        match ResolveItem(xs[|xs| - 1])
        case Err(e) => Err(e)
        case Ok(None) => Ok(ts)
        case Ok(Some(t)) => Ok(ts + [t])
  }

  lemma SingleItem(x: Arg)
    ensures ResolveItems([x]) == match ResolveItem(x)
                                 case Err(e) => Err(e)
                                 case Ok(None) => Ok([])
                                 case Ok(Some(t)) => Ok([t])
  {
    var xs := [x];
    assert xs[..0] == [] && xs[0] == x;
    assert ResolveItems(xs[..0]) == Ok([]);
    match ResolveItem(x)
    case Ok(Some(t)) => assert [] + [t] == [t];
    case _ =>
  }

  /** The whole of `handle_problem_types`. */
  function Resolve(a: Arg): (r: Result<Resolved>)
    ensures a.Type? ==> r == Ok(Single(a.t))
    ensures a.Str? ==> match Lookup(a.s)
                       case Some(t) => r == Ok(Many([t]))
                       case None => r == Err(KeyError(UnknownMessage(a.s)))
    ensures a.Iterable? ==> r.Err? || r.value.Many?
    ensures a.NotIterable? ==> r.Err? && r.error.TypeError?
  {
    match a
    case Type(t) => Ok(Single(t))
    case NotIterable(name) => Err(TypeError("'" + name + "' object is not iterable"))
    case Str(_) =>
      SingleItem(a);
      (match ResolveItems([a])
       case Ok(ts) => Ok(Many(ts))
       case Err(e) => Err(e))
    case Iterable(xs) =>
      match ResolveItems(xs)
      case Ok(ts) => Ok(Many(ts))
      case Err(e) => Err(e)
  }

  /** `handle_problem_types`, with the loop that appends to `types`. */
  method HandleProblemTypes(problemTypes: Arg) returns (r: Result<Resolved>)
    ensures r == Resolve(problemTypes)
  {
    if problemTypes.Type? {
      return Ok(Single(problemTypes.t));
    }
    var items: seq<Arg>;
    if problemTypes.Str? {
      items := [problemTypes];
    } else if problemTypes.Iterable? {
      items := problemTypes.items;
    } else {
      return Err(TypeError("'" + problemTypes.typeName + "' object is not iterable"));
    }
    var types: seq<ProblemType> := [];
    for i := 0 to |items|
      invariant ResolveItems(items[..i]) == Ok(types)
    {
      assert items[..i + 1][..i] == items[..i];
      var problemType := items[i];
      if problemType.Type? {
        types := types + [problemType.t];
      } else if problemType.Str? {
        var tp := FromName(Upper(problemType.s));
        if tp.None? {
          ErrorPersists(items, i + 1);
          return Err(KeyError(UnknownMessage(problemType.s)));
        }
        types := types + [tp.value];
      }
    }
    assert items[..|items|] == items;
    r := Ok(Many(types));
  }

  /** Once the loop has raised, later items change nothing. */
  lemma {:induction false} ErrorPersists(xs: seq<Arg>, k: nat)
    requires k <= |xs| && ResolveItems(xs[..k]).Err?
    ensures ResolveItems(xs) == ResolveItems(xs[..k])
    decreases |xs|
  {
    if k < |xs| {
      var init := xs[..|xs| - 1];
      assert init[..k] == xs[..k];
      ErrorPersists(init, k);
    } else {
      assert xs[..k] == xs;
    }
  }

  /** The items that the loop keeps (members and strings), in input order. */
  function Kept(xs: seq<Arg>): seq<Arg>
    decreases |xs|
  {
    if xs == [] then []
    else
      var last := xs[|xs| - 1];
      Kept(xs[..|xs| - 1]) + (if last.Type? || last.Str? then [last] else [])
  }

  /** The member a kept item stands for. */
  function Meaning(x: Arg): ProblemType
    requires (x.Type? || x.Str?) && Known(x)
  {
    if x.Type? then x.t else Lookup(x.s).value
  }

  /** Without an unknown name the result is the kept items' members, in input
      order, members passing through unchanged; with one, the call raises. */
  lemma {:induction false} ResolveItemsMeaning(xs: seq<Arg>)
    ensures ResolveItems(xs).Ok? <==> forall i | 0 <= i < |xs| :: Known(xs[i])
    ensures ResolveItems(xs).Err? ==> ResolveItems(xs).error.KeyError?
    ensures ResolveItems(xs).Ok? ==>
              var ts := ResolveItems(xs).value;
              var ks := Kept(xs);
              && |ts| == |ks|
              && forall i | 0 <= i < |ts| :: (ks[i].Type? || ks[i].Str?) && Known(ks[i]) && ts[i] == Meaning(ks[i])
    decreases |xs|
  {
    if xs != [] {
      var init := xs[..|xs| - 1];
      ResolveItemsMeaning(init);
      assert forall i | 0 <= i < |init| :: init[i] == xs[i];
    }
  }

  /** The KeyError names the first unknown string, spelled as the caller gave it,
      and no partial list is returned. */
  lemma FirstUnknownRaises(xs: seq<Arg>, k: nat)
    requires k < |xs| && !Known(xs[k])
    requires forall j | 0 <= j < k :: Known(xs[j])
    ensures ResolveItems(xs) == Err(KeyError(UnknownMessage(xs[k].s)))
  {
    var pre := xs[..k];
    assert ResolveItems(pre).Ok? by {
      assert forall i | 0 <= i < |pre| :: pre[i] == xs[i];
      ResolveItemsMeaning(pre);
    }
    var upto := xs[..k + 1];
    assert upto[..k] == pre && upto[k] == xs[k];
    assert ResolveItem(xs[k]) == Err(KeyError(UnknownMessage(xs[k].s)));
    assert ResolveItems(upto) == Err(KeyError(UnknownMessage(xs[k].s)));
    ErrorPersists(xs, k + 1);
  }

  /** With no error, the list holds exactly one member per string or member item. */
  lemma ResolveLength(xs: seq<Arg>)
    requires ResolveItems(xs).Ok?
    ensures |ResolveItems(xs).value| == |Kept(xs)|
  {
    ResolveItemsMeaning(xs);
  }

  lemma NameIsUpperCase(t: ProblemType)
    ensures forall i | 0 <= i < |Name(t)| :: 'A' <= Name(t)[i] <= 'Z' || Name(t)[i] == '_'
  {
  }

  /** Lookup ignores case: every casing of a member's name finds that member. */
  lemma CaseInsensitive(t: ProblemType, lower: seq<bool>)
    requires |lower| == |Name(t)|
    ensures Resolve(Str(Recased(Name(t), lower))) == Ok(Many([t]))
  {
    var n := Name(t);
    var s := Recased(n, lower);
    NameIsUpperCase(t);
    assert Upper(s) == n;
  }

  /** A string resolves to `[t]` exactly when its upper-cased form is `t`'s name. */
  lemma StringResolvesIff(s: string, t: ProblemType)
    ensures Resolve(Str(s)) == Ok(Many([t])) <==> Upper(s) == Name(t)
  {
    if Upper(s) == Name(t) {
      assert FromName(Name(t)).Some?;
    }
  }

  /** Three casings of "binary" name the same member. */
  lemma ExampleCasings()
    ensures Resolve(Str("binary")) == Ok(Many([Binary]))
    ensures Resolve(Str("Binary")) == Ok(Many([Binary]))
    ensures Resolve(Str("BINARY")) == Ok(Many([Binary]))
  {
    assert Upper("binary") == "BINARY";
    assert Upper("Binary") == "BINARY";
    assert Upper("BINARY") == "BINARY";
  }

  /** An unknown name raises a KeyError that carries it. */
  lemma ExampleUnknown()
    ensures Resolve(Str("not_a_type")) == Err(KeyError(UnknownMessage("not_a_type")))
  {
    assert Upper("not_a_type") == "NOT_A_TYPE";
    assert Lookup("not_a_type").None?;
  }
}
