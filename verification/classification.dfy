/**
 * The argument loop of `instrument_query`: one left-to-right pass over the
 * `Meta` entries that picks out the connection-handle expression, gathers the
 * extra field tokens and keeps everything else for `tracing::instrument`.
 */
module Classification {
  import opened Wrappers
  import opened Tokens
  import opened Syntax

  /** The macro panics (a compile error) when `get_ident().unwrap()` meets a path that is not one identifier. */
  datatype MacroError = UnwrapOnNonIdent(path: ModPath)

  /** The three variables the loop updates: `instrument_args`, `fields` and `db_ident`. */
  datatype Classified = Classified(instrumentArgs: seq<Meta>, fields: TokenStream, dbIdent: TokenStream)

  /** `quote! { db }`: the handle expression when no `db = ...` entry is given. */
  const DefaultHandle: TokenStream := [Ident("db")]

  const Initial: Classified := Classified([], [], DefaultHandle)

  /** `db = <expr>`: overrides the handle expression. */
  predicate IsDbBinding(m: Meta)
  {
    m.NameValue? && GetIdent(m.path) == Some("db")
  }

  /** `fields(...)`: contributes its inner tokens to the extra field list. */
  predicate IsFieldsList(m: Meta)
  {
    m.List? && GetIdent(m.path) == Some("fields")
  }

  /** An entry whose name the loop unwraps but which is not a single identifier. */
  predicate IsMalformed(m: Meta)
  {
    !m.Path? && GetIdent(m.path).None?
  }

  predicate NoneMalformed(args: seq<Meta>)
  {
    forall k :: 0 <= k < |args| ==> !IsMalformed(args[k])
  }

  /** Entry `i` is the first malformed one, so the loop panics on it. */
  predicate FirstMalformedAt(args: seq<Meta>, i: int)
  {
    0 <= i < |args| && IsMalformed(args[i]) && NoneMalformed(args[..i])
  }

  /** Reference: the entries that are neither a `db` binding nor a `fields` list, in their original order. */
  function PassThrough(args: seq<Meta>): seq<Meta>
  {
    if |args| == 0 then []
    else if IsDbBinding(args[0]) || IsFieldsList(args[0]) then PassThrough(args[1..])
    else [args[0]] + PassThrough(args[1..])
  }

  /** Reference: the inner tokens of every `fields(...)` entry, concatenated in order. */
  function ExtraFields(args: seq<Meta>): TokenStream
  {
    if |args| == 0 then []
    else if IsFieldsList(args[0]) then args[0].tokens + ExtraFields(args[1..])
    else ExtraFields(args[1..])
  }

  /** Reference: the value of the last `db = ...` entry, looking from the end of the list. */
  function LastDbValue(args: seq<Meta>): Option<TokenStream>
  {
    if |args| == 0 then None
    else if IsDbBinding(args[|args| - 1]) then Some(args[|args| - 1].value)
    else LastDbValue(args[..|args| - 1])
  }

  /**
   * One iteration of the loop body: it panics exactly on a malformed entry,
   * and otherwise moves the state on by what the reference definitions
   * say that single entry contributes.
   */
  function Step(acc: Classified, arg: Meta): (r: Result<Classified, MacroError>)
    ensures r.Failure? <==> IsMalformed(arg)
    ensures r.Failure? ==> r.error == UnwrapOnNonIdent(arg.path)
    ensures r.Success? ==> r.value.instrumentArgs == acc.instrumentArgs + PassThrough([arg])
    ensures r.Success? ==> r.value.fields == acc.fields + ExtraFields([arg])
    ensures r.Success? ==> r.value.dbIdent == LastDbValue([arg]).GetOr(acc.dbIdent)
  {
    assert [arg][..0] == [];

    match arg
    case NameValue(p, v) =>
      (match GetIdent(p)
       case None => Failure(UnwrapOnNonIdent(p))
       case Some(id) =>
         if id == "db" then Success(acc.(dbIdent := v))
         else Success(acc.(instrumentArgs := acc.instrumentArgs + [arg])))
    case List(p, _, ts) =>
      (match GetIdent(p)
       case None => Failure(UnwrapOnNonIdent(p))
       case Some(id) =>
         if id == "fields" then Success(acc.(fields := acc.fields + ts))
         else Success(acc.(instrumentArgs := acc.instrumentArgs + [arg])))
    case Path(_) => Success(acc.(instrumentArgs := acc.instrumentArgs + [arg]))
  }

  /** Looking at one more entry in front: a later `db` binding still wins over this one. */
  lemma {:induction false} LastDbValueCons(a: Meta, rest: seq<Meta>)
    ensures LastDbValue([a] + rest) ==
      if LastDbValue(rest).Some? then LastDbValue(rest)
      else if IsDbBinding(a) then Some(a.value)
      else None
    decreases |rest|
  {
    var s := [a] + rest;
    if |rest| == 0 {
      assert s == [a];
      assert s[..0] == [];
    } else {
      assert s[|s| - 1] == rest[|rest| - 1];
      assert s[..|s| - 1] == [a] + rest[..|rest| - 1];
      LastDbValueCons(a, rest[..|rest| - 1]);
    }
  }

  /** Behind a well-formed head, malformed entries and the first of them are those of the tail, one place later. */
  lemma MalformedAfterHead(args: seq<Meta>)
    requires |args| > 0 && !IsMalformed(args[0])
    ensures NoneMalformed(args) <==> NoneMalformed(args[1..])
    ensures forall j :: FirstMalformedAt(args[1..], j) ==> FirstMalformedAt(args, j + 1) && args[1..][j] == args[j + 1]
  {
    forall j | FirstMalformedAt(args[1..], j)
      ensures FirstMalformedAt(args, j + 1)
    {
      assert args[..j + 1] == [args[0]] + args[1..][..j];
    }
  }

  /** The loop run from state `acc` over `args`: stops at the first panic. */
  function ClassifyFrom(acc: Classified, args: seq<Meta>): (r: Result<Classified, MacroError>)
    ensures r.Failure? <==> !NoneMalformed(args)
    ensures r.Failure? ==>
      exists i :: FirstMalformedAt(args, i) && r.error == UnwrapOnNonIdent(args[i].path)
    ensures r.Success? ==> r.value.instrumentArgs == acc.instrumentArgs + PassThrough(args)
    ensures r.Success? ==> r.value.fields == acc.fields + ExtraFields(args)
    ensures r.Success? ==> r.value.dbIdent == LastDbValue(args).GetOr(acc.dbIdent)
    decreases |args|
  {
    if |args| == 0 then Success(acc)
    else
      match Step(acc, args[0])
      case Failure(e) =>
        assert args[..0] == [];
        assert FirstMalformedAt(args, 0);
        Failure(e)
      case Success(next) =>
        var r := ClassifyFrom(next, args[1..]);
        assert args == [args[0]] + args[1..];
        LastDbValueCons(args[0], args[1..]);
        ClassificationDistributes([args[0]], args[1..]);
        MalformedAfterHead(args);
        r
  }

  /**
   * The whole loop, from `instrument_args = []`, `fields = []`, `db_ident = db`.
   * It panics exactly when some `name = value` or `name(...)` entry has a
   * non-identifier path, stopping at the first such entry; otherwise the three
   * results are the reference definitions above.
   */
  function Classify(args: seq<Meta>): (r: Result<Classified, MacroError>)
    ensures r.Failure? <==> !NoneMalformed(args)
    ensures r.Failure? ==>
      exists i :: FirstMalformedAt(args, i) && r.error == UnwrapOnNonIdent(args[i].path)
    ensures r.Success? ==> r.value.instrumentArgs == PassThrough(args)
    ensures r.Success? ==> r.value.fields == ExtraFields(args)
    ensures r.Success? ==> r.value.dbIdent == LastDbValue(args).GetOr(DefaultHandle)
  {
    ClassifyFrom(Initial, args)
  }

  /** Without any `db = ...` entry the handle stays the identifier `db`. */
  lemma {:induction false} HandleDefaultsToDb(args: seq<Meta>)
    requires forall k :: 0 <= k < |args| ==> !IsDbBinding(args[k])
    ensures LastDbValue(args) == None
    ensures Classify(args).Success? ==> Classify(args).value.dbIdent == [Ident("db")]
  {
    if |args| > 0 {
      HandleDefaultsToDb(args[..|args| - 1]);
    }
  }

  /** Last one wins: the handle is the value of the `db = ...` entry that no later `db` entry follows. */
  lemma {:induction false} HandleIsLastDbBinding(args: seq<Meta>, i: nat)
    requires i < |args| && IsDbBinding(args[i])
    requires forall k :: i < k < |args| ==> !IsDbBinding(args[k])
    ensures LastDbValue(args) == Some(args[i].value)
    ensures Classify(args).Success? ==> Classify(args).value.dbIdent == args[i].value
    decreases |args|
  {
    if i < |args| - 1 {
      HandleIsLastDbBinding(args[..|args| - 1], i);
    }
  }

  /** An entry is passed through exactly when it is neither a `db` binding nor a `fields` list; bare paths always are. */
  lemma {:induction false} PassThroughMembers(args: seq<Meta>, m: Meta)
    ensures m in PassThrough(args) <==> m in args && !IsDbBinding(m) && !IsFieldsList(m)
    ensures m in args && m.Path? ==> m in PassThrough(args)
  {
    if |args| > 0 {
      PassThroughMembers(args[1..], m);
      assert args == [args[0]] + args[1..];
    }
  }

  /** Order preservation: classifying two runs of entries one after the other keeps each run's pass-through entries and field tokens together and in order. */
  lemma {:induction false} ClassificationDistributes(a: seq<Meta>, b: seq<Meta>)
    ensures PassThrough(a + b) == PassThrough(a) + PassThrough(b)
    ensures ExtraFields(a + b) == ExtraFields(a) + ExtraFields(b)
  {
    if |a| > 0 {
      assert (a + b)[1..] == a[1..] + b;
      ClassificationDistributes(a[1..], b);
    } else {
      assert a + b == b;
    }
  }
}
