/**
 * The run parameters: the JSON dictionary "param" the graphs read, the
 * defaulting of the three output paths from their prefixes and the run
 * name, and the gate that lets a stage trigger be skipped by a flag.
 */
module Params {

  /** The JSON values a parameter can hold. */
  datatype Value =
    | Str(s: string)
    | Int(i: int)
    | Float(r: real)
    | Bool(b: bool)
    | List(items: seq<Value>)
    | Dict(entries: map<string, Value>)
    | Null

  /** Python's truth value of a parameter. */
  predicate Truthy(v: Value)
  {
    match v
    case Str(s) => s != ""
    case Int(i) => i != 0
    case Float(r) => r != 0.0
    case Bool(b) => b
    case List(items) => items != []
    case Dict(entries) => entries != map[]
    case Null => false
  }

  /** The exceptions the defaulting loop can raise. */
  datatype Error = KeyError(key: string) | TypeError

  datatype Result<T> = Ok(value: T) | Fail(error: Error)

  /** The values Python adds arithmetically: integers, floats, and booleans as 0 and 1. */
  predicate IsNumber(v: Value)
  {
    v.Int? || v.Float? || v.Bool?
  }

  function Numeric(v: Value): real
    requires IsNumber(v)
  {
    match v
    case Int(i) => i as real
    case Float(r) => r
    case Bool(b) => if b then 1.0 else 0.0
  }

  /** An integer or boolean as the integer Python adds. */
  function Whole(v: Value): int
    requires v.Int? || v.Bool?
  {
    if v.Int? then v.i else if v.b then 1 else 0
  }

  /**
   * Python's `a + b` on parameter values: string and list concatenation,
   * numeric addition (a float if either operand is one), TypeError otherwise,
   * dictionaries included.
   */
  function Plus(a: Value, b: Value): (r: Result<Value>)
    ensures a.Str? && b.Str? ==> r == Ok(Str(a.s + b.s))
    ensures a.List? && b.List? ==> r == Ok(List(a.items + b.items))
    ensures IsNumber(a) && IsNumber(b) ==> r.Ok? && IsNumber(r.value) && Numeric(r.value) == Numeric(a) + Numeric(b)
    ensures IsNumber(a) && IsNumber(b) ==> (r.Ok? && r.value.Float? <==> a.Float? || b.Float?)
    ensures r.Ok? <==> (a.Str? && b.Str?) || (a.List? && b.List?) || (IsNumber(a) && IsNumber(b))
  {
    if a.Str? && b.Str? then Ok(Str(a.s + b.s))
    else if a.List? && b.List? then Ok(List(a.items + b.items))
    else if IsNumber(a) && IsNumber(b) then
      if a.Float? || b.Float? then Ok(Float(Numeric(a) + Numeric(b)))
      else Ok(Int(Whole(a) + Whole(b)))
    else Fail(TypeError)
  }

  // ---------------------------------------------------------------------
  // The skip gate of the stage triggers

  /** What the trigger's callable decides: run the stage graph, or skip it with a notice. */
  datatype Confirmation<T> = Proceed(run: T) | Skip(notice: string)

  /**
   * confirm_dag_run: the stage graph runs unless the parameter named by the
   * trigger's skip flag is present and true; a missing flag means run.
   */
  function ConfirmDagRun<T>(param: map<string, Value>, skipFlag: string, op: string, run: T): (r: Confirmation<T>)
    ensures r.Skip? <==> skipFlag in param && Truthy(param[skipFlag])
    ensures r.Proceed? ==> r.run == run
    ensures r.Skip? ==> |r.notice| > |op| && r.notice[|r.notice| - |op|..] == op
  {
    if skipFlag in param && Truthy(param[skipFlag]) then Skip(":exclamation: Skip " + op) else Proceed(run)
  }

  /** Clearing a skip flag (or setting it to a false value) makes the trigger run. */
  lemma ClearedFlagRuns<T>(param: map<string, Value>, skipFlag: string, op: string, run: T, v: Value)
    requires !Truthy(v)
    ensures ConfirmDagRun(param[skipFlag := v], skipFlag, op, run) == Proceed(run)
    ensures ConfirmDagRun(param - {skipFlag}, skipFlag, op, run) == Proceed(run)
  {
  }

  // ---------------------------------------------------------------------
  // Defaulting SCRATCH_PATH, WS_PATH and SEG_PATH

  /** The outputs whose path defaults to prefix + name. */
  function PathNames(): seq<string>
  {
    ["SCRATCH", "WS", "SEG"]
  }

  function PathKey(p: string): string
  {
    p + "_PATH"
  }

  function PrefixKey(p: string): string
  {
    p + "_PREFIX"
  }

  /** The keys the loop may add. */
  function PathKeys(ps: seq<string>): set<string>
  {
    set p | p in ps :: PathKey(p)
  }

  /** The names of the loop lead to keys that do not collide with each other, with a prefix key or with "NAME". */
  predicate WellNamed(ps: seq<string>)
  {
    && (forall i, j :: 0 <= i < j < |ps| ==> PathKey(ps[i]) != PathKey(ps[j]))
    && (forall p, q :: p in ps && q in ps ==> PathKey(p) != PrefixKey(q))
    && (forall p :: p in ps ==> PathKey(p) != "NAME")
  }

  /** One turn of the loop: add X_PATH = X_PREFIX + NAME when X_PATH is missing. */
  function DefaultOne(param: map<string, Value>, p: string): Result<map<string, Value>>
  {
    if PathKey(p) in param then Ok(param)
    else if PrefixKey(p) !in param then Fail(KeyError(PrefixKey(p)))
    else if "NAME" !in param then Fail(KeyError("NAME"))
    else match Plus(param[PrefixKey(p)], param["NAME"])
      case Ok(v) => Ok(param[PathKey(p) := v])
      case Fail(e) => Fail(e)
  }

  /** Where the loop ends: the dictionary as it stands, and the exception that stopped the loop, if any. */
  datatype Outcome = Outcome(param: map<string, Value>, error: Option<Error>)

  datatype Option<T> = None | Some(value: T)

  /** The loop over ps: each turn defaults one path; an exception stops it with the earlier turns' updates in place. */
  function Defaults(param: map<string, Value>, ps: seq<string>): Outcome
    decreases |ps|
  {
    if ps == [] then Outcome(param, None)
    else match DefaultOne(param, ps[0])
      case Ok(m) => Defaults(m, ps[1..])
      case Fail(e) => Outcome(param, Some(e))
  }

  /** The three output paths are well named. */
  lemma PathNamesWellNamed()
    ensures WellNamed(PathNames())
  {
    // The keys differ in length: 12, 7 and 8 for the paths, 14, 9 and 10 for the prefixes, 4 for "NAME".
    assert |PathKey("SCRATCH")| == 12 && |PathKey("WS")| == 7 && |PathKey("SEG")| == 8;
    assert |PrefixKey("SCRATCH")| == 14 && |PrefixKey("WS")| == 9 && |PrefixKey("SEG")| == 10;
  }

  /**
   * When the loop completes, every path key is present, no key it found is
   * changed, no other key is added, and every path it added is its prefix
   * plus the run name.
   */
  lemma DefaultsComplete(param: map<string, Value>, ps: seq<string>)
    requires WellNamed(ps)
    requires Defaults(param, ps).error == None
    ensures var r := Defaults(param, ps).param;
      && (forall k :: k in r <==> k in param || k in PathKeys(ps))
      && (forall k :: k in param ==> r[k] == param[k])
      && (forall p :: p in ps && PathKey(p) !in param ==>
            PrefixKey(p) in param && "NAME" in param && Plus(param[PrefixKey(p)], param["NAME"]) == Ok(r[PathKey(p)]))
  {
    DefaultsKeys(param, ps);
    DefaultsKeep(param, ps);
    DefaultsAdded(param, ps);
  }

  /** A completed loop adds exactly the missing path keys. */
  lemma {:induction false} DefaultsKeys(param: map<string, Value>, ps: seq<string>)
    requires Defaults(param, ps).error == None
    decreases |ps|
    ensures forall k :: k in Defaults(param, ps).param <==> k in param || k in PathKeys(ps)
  {
    if ps != [] {
      var p := ps[0];
      DefaultOneFacts(param, p);
      DefaultsKeys(DefaultOne(param, p).value, ps[1..]);
      assert forall q :: q in ps <==> q == p || q in ps[1..];
    }
  }

  /** A completed loop changes no value it found. */
  lemma {:induction false} DefaultsKeep(param: map<string, Value>, ps: seq<string>)
    requires Defaults(param, ps).error == None
    decreases |ps|
    ensures forall k :: k in param ==> k in Defaults(param, ps).param && Defaults(param, ps).param[k] == param[k]
  {
    if ps != [] {
      var p := ps[0];
      DefaultOneFacts(param, p);
      DefaultsKeep(DefaultOne(param, p).value, ps[1..]);
    }
  }

  /** Every path a completed loop adds is its prefix plus the run name. */
  lemma {:induction false} DefaultsAdded(param: map<string, Value>, ps: seq<string>)
    requires WellNamed(ps)
    requires Defaults(param, ps).error == None
    decreases |ps|
    ensures forall p :: p in ps && PathKey(p) !in param ==>
      && PrefixKey(p) in param && "NAME" in param && PathKey(p) in Defaults(param, ps).param
      && Plus(param[PrefixKey(p)], param["NAME"]) == Ok(Defaults(param, ps).param[PathKey(p)])
  {
    if ps != [] {
      var p := ps[0];
      var m := DefaultOne(param, p).value;
      var r := Defaults(param, ps).param;
      DefaultOneFacts(param, p);
      WellNamedTail(ps);
      DefaultsAdded(m, ps[1..]);
      DefaultsKeep(m, ps[1..]);
      forall q | q in ps && PathKey(q) !in param
        ensures PrefixKey(q) in param && "NAME" in param && PathKey(q) in r
        ensures Plus(param[PrefixKey(q)], param["NAME"]) == Ok(r[PathKey(q)])
      {
        if q != p {
          var j :| 0 <= j < |ps| && ps[j] == q;
          assert PathKey(q) != PathKey(p) by {
            assert ps[0] == p && j != 0;
          }
          assert q in ps[1..] by {
            assert ps[1..][j - 1] == q;
          }
        }
      }
    }
  }

  /** One turn that succeeds adds at most its own path key, keeps every other value, and sets the path to prefix plus name. */
  lemma DefaultOneFacts(param: map<string, Value>, p: string)
    requires DefaultOne(param, p).Ok?
    ensures var m := DefaultOne(param, p).value;
      && (forall k :: k in m <==> k in param || k == PathKey(p))
      && (forall k :: k in param ==> m[k] == param[k])
      && (PathKey(p) !in param ==>
            PrefixKey(p) in param && "NAME" in param && Plus(param[PrefixKey(p)], param["NAME"]) == Ok(m[PathKey(p)]))
  {
  }

  /** The names after the first are well named too, and the first path key is not among theirs. */
  lemma WellNamedTail(ps: seq<string>)
    requires WellNamed(ps) && ps != []
    ensures WellNamed(ps[1..])
  {
    forall i, j | 0 <= i < j < |ps[1..]|
      ensures PathKey(ps[1..][i]) != PathKey(ps[1..][j])
    {
      assert ps[1..][i] == ps[i + 1] && ps[1..][j] == ps[j + 1];
    }
  }

  /** Running the defaulting again after it completed changes nothing. */
  lemma {:induction false} DefaultsIdempotent(param: map<string, Value>, ps: seq<string>)
    requires WellNamed(ps)
    requires Defaults(param, ps).error == None
    ensures Defaults(Defaults(param, ps).param, ps) == Outcome(Defaults(param, ps).param, None)
  {
    DefaultsComplete(param, ps);
    PresentPathsKept(Defaults(param, ps).param, ps);
  }

  /** When every path key is already present, the loop changes nothing. */
  lemma {:induction false} PresentPathsKept(param: map<string, Value>, ps: seq<string>)
    requires forall p :: p in ps ==> PathKey(p) in param
    ensures Defaults(param, ps) == Outcome(param, None)
    decreases |ps|
  {
    if ps != [] {
      PresentPathsKept(param, ps[1..]);
    }
  }

  /** A missing key the loop stops on is a prefix key or "NAME", absent from the dictionary as it was. */
  lemma {:induction false} DefaultsKeyError(param: map<string, Value>, ps: seq<string>, k: string)
    requires WellNamed(ps)
    requires Defaults(param, ps).error == Some(KeyError(k))
    ensures k !in param
    ensures k == "NAME" || exists p :: p in ps && k == PrefixKey(p)
    decreases |ps|
  {
    var p := ps[0];
    match DefaultOne(param, p)
    case Fail(e) =>
    case Ok(m) =>
      WellNamedTail(ps);
      DefaultsKeyError(m, ps[1..], k);
      if k != "NAME" {
        var q :| q in ps[1..] && k == PrefixKey(q);
        assert q in ps;
      }
  }

  /** The dictionary "param" that the module-level code updates in place. */
  class ParamStore {
    var param: map<string, Value>

    constructor (param: map<string, Value>)
      ensures this.param == param
    {
      this.param := param;
    }

    /** The loop over SCRATCH, WS and SEG that fills in the missing paths. */
    method DefaultPaths() returns (error: Option<Error>)
      modifies this
      ensures Outcome(param, error) == Defaults(old(param), PathNames())
    {
      var ps := PathNames();
      error := None;
      var i := 0;
      while i < |ps|
        invariant 0 <= i <= |ps|
        invariant Defaults(old(param), ps) == Defaults(param, ps[i..])
      {
        var p := ps[i];
        assert ps[i..][0] == p && ps[i..][1..] == ps[i + 1..];
        if PathKey(p) !in param {
          if PrefixKey(p) !in param {
            error := Some(KeyError(PrefixKey(p)));
            return;
          }
          if "NAME" !in param {
            error := Some(KeyError("NAME"));
            return;
          }
          var v := Plus(param[PrefixKey(p)], param["NAME"]);
          if v.Fail? {
            error := Some(v.error);
            return;
          }
          param := param[PathKey(p) := v.value];
        }
        i := i + 1;
      }
    }
  }
}
