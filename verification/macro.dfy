/**
 * `instrument_query` end to end: classify the arguments, rewrite the body,
 * and emit the replacement attribute followed by the rewritten function.
 */
module Macro {
  import opened Wrappers
  import opened Tokens
  import opened Syntax
  import opened Classification
  import opened Injection
  import opened Synthesis

  /** The annotated function, already parsed: outer attributes, visibility, signature, body statements. */
  datatype ItemFn = ItemFn(attrs: seq<TokenStream>, vis: TokenStream, sig: TokenStream, stmts: seq<Stmt>)

  /** The macro's output: the synthesised attribute, then the function it decorates. */
  datatype Expansion = Expansion(attribute: TokenStream, item: ItemFn)

  /** The handle expression the injected statements read from. */
  function Handle(args: seq<Meta>): TokenStream
  {
    LastDbValue(args).GetOr(DefaultHandle)
  }

  /**
   * The expansion of `#[instrument_query(args)] item`. It fails exactly when
   * an entry's name had to be a single identifier and was not; otherwise the
   * function keeps its attributes, visibility and signature, its body gains
   * the eight tag statements (in final order) ahead of the original ones,
   * all reading from the last `db = ...` value or `db`, and the attribute
   * carries the `fields(...)` tokens and the pass-through entries.
   */
  function InstrumentQuery(args: seq<Meta>, item: ItemFn): (r: Result<Expansion, MacroError>)
    ensures r.Failure? <==> exists i :: 0 <= i < |args| && IsMalformed(args[i])
    ensures r.Failure? ==> exists i :: FirstMalformedAt(args, i) && r.error == UnwrapOnNonIdent(args[i].path)
    ensures r.Success? ==>
      && r.value.item.attrs == item.attrs
      && r.value.item.vis == item.vis
      && r.value.item.sig == item.sig
    ensures r.Success? ==>
      && |r.value.item.stmts| == |item.stmts| + 8
      && r.value.item.stmts == FinalTags(Handle(args)) + item.stmts
    ensures r.Success? ==> r.value.attribute == InstrumentAttribute(ExtraFields(args), PassThrough(args))
  {
    var classified :- Classify(args);
    Success(Rewrite(classified, item))
  }

  /** The output once the arguments are classified: the attribute, then the function with the tags injected. */
  function Rewrite(classified: Classified, item: ItemFn): (e: Expansion)
    ensures e.item.attrs == item.attrs && e.item.vis == item.vis && e.item.sig == item.sig
    ensures |e.item.stmts| == |item.stmts| + 8
    ensures e.item.stmts == FinalTags(classified.dbIdent) + item.stmts
    ensures e.attribute == InstrumentAttribute(classified.fields, classified.instrumentArgs)
  {
    var stmts := InjectTags(classified.dbIdent, item.stmts);
    assert stmts == stmts[..8] + stmts[8..];
    Expansion(InstrumentAttribute(classified.fields, classified.instrumentArgs), item.(stmts := stmts))
  }

  /** With `db = conn` as the only handle binding, every injected `record` reads from `conn`. */
  lemma HandleOverrideReachesEveryRecord(args: seq<Meta>, item: ItemFn, i: nat)
    requires i < |args| && IsDbBinding(args[i])
    requires forall k :: i < k < |args| ==> !IsDbBinding(args[k])
    requires NoneMalformed(args)
    ensures InstrumentQuery(args, item).Success?
    ensures forall k :: 0 <= k < 8 && InstrumentQuery(args, item).value.item.stmts[k].RecordTag? ==>
      InstrumentQuery(args, item).value.item.stmts[k].receiver == args[i].value
  {
    HandleIsLastDbBinding(args, i);
  }

  /** With no arguments, the attribute declares the fixed fields only and the handle is `db`. */
  lemma NoArguments(item: ItemFn)
    ensures InstrumentQuery([], item).Success?
    ensures InstrumentQuery([], item).value.attribute == InstrumentAttribute([], [])
    ensures InstrumentQuery([], item).value.item.stmts == FinalTags([Ident("db")]) + item.stmts
  {
  }
}
