/**
 * The replacement attribute `#[::tracing::instrument(fields(...) ...)]`,
 * emitted token for token as the macro writes it, separators included and
 * missing.
 */
module Synthesis {
  import opened Wrappers
  import opened Tokens
  import opened Syntax

  /** A span field declaration: a dotted name and, optionally, an initial literal (its source text). */
  datatype FieldDecl = FieldDecl(name: seq<string>, init: Option<string>)

  /**
   * The twelve fields every instrumented query declares, in the order the
   * attribute lists them: `span.kind`, `span.type`, `component`, `operation`,
   * `peer.hostname`, `peer.service`, `out.host`, `out.port`, `db.system`,
   * `db.instance`, `db.name`, `db.statement`.
   */
  const FixedFields: seq<FieldDecl> := [
    FieldDecl(["span", "kind"], Some("\"client\"")),
    FieldDecl(["span", "type"], Some("\"sql\"")),
    FieldDecl(["component"], Some("\"sqlx\"")),
    FieldDecl(["operation"], Some("\"sqlx.query\"")),
    FieldDecl(["peer", "hostname"], None),
    FieldDecl(["peer", "service"], None),
    FieldDecl(["out", "host"], None),
    FieldDecl(["out", "port"], None),
    FieldDecl(["db", "system"], None),
    FieldDecl(["db", "instance"], None),
    FieldDecl(["db", "name"], None),
    FieldDecl(["db", "statement"], None)
  ]

  /** The fixed part of the `fields(...)` argument, line by line as the macro spells it: there is no comma after `component = "sqlx"`. */
  const FieldLines: seq<TokenStream> := [
    [Ident("span"), Punct('.'), Ident("kind"), Punct('='), Literal("\"client\""), Comma],
    [Ident("span"), Punct('.'), Ident("type"), Punct('='), Literal("\"sql\""), Comma],
    [Ident("component"), Punct('='), Literal("\"sqlx\"")],
    [Ident("operation"), Punct('='), Literal("\"sqlx.query\""), Comma],
    [Ident("peer"), Punct('.'), Ident("hostname"), Comma],
    [Ident("peer"), Punct('.'), Ident("service"), Comma],
    [Ident("out"), Punct('.'), Ident("host"), Comma],
    [Ident("out"), Punct('.'), Ident("port"), Comma],
    [Ident("db"), Punct('.'), Ident("system"), Comma],
    [Ident("db"), Punct('.'), Ident("instance"), Comma],
    [Ident("db"), Punct('.'), Ident("name"), Comma],
    [Ident("db"), Punct('.'), Ident("statement"), Comma]
  ]

  function Flatten(lines: seq<TokenStream>): TokenStream
  {
    if |lines| == 0 then [] else lines[0] + Flatten(lines[1..])
  }

  const FieldPrefix: TokenStream := Flatten(FieldLines)

  /** `::tracing::instrument` */
  const InstrumentPath: TokenStream :=
    [Punct(':'), Punct(':'), Ident("tracing"), Punct(':'), Punct(':'), Ident("instrument")]

  function DottedTokens(segments: seq<string>): TokenStream
  {
    if |segments| == 0 then []
    else if |segments| == 1 then [Ident(segments[0])]
    else [Ident(segments[0]), Punct('.')] + DottedTokens(segments[1..])
  }

  /** `name` or `name = literal`. */
  function DeclTokens(d: FieldDecl): TokenStream
  {
    DottedTokens(d.name) + (if d.init.Some? then [Punct('='), Literal(d.init.value)] else [])
  }

  /** A two-part name is two identifiers around a `.` token. */
  lemma DottedPair(a: string, b: string)
    ensures DottedTokens([a, b]) == [Ident(a), Punct('.'), Ident(b)]
  {
    assert [a, b][1..] == [b];
  }

  /**
   * The fixed prefix is the twelve fixed declarations in order, each on its
   * own line followed by a comma, except the third, `component = "sqlx"`,
   * which runs straight into `operation`.
   */
  lemma FieldPrefixDeclaresFixedFields()
    ensures |FieldLines| == |FixedFields|
    ensures forall k :: 0 <= k < |FieldLines| ==>
      FieldLines[k] == DeclTokens(FixedFields[k]) + (if k == 2 then [] else [Comma])
    ensures FieldLines[2][|FieldLines[2]| - 1] == Literal("\"sqlx\"") && FieldLines[3][0] == Ident("operation")
  {
    forall k | 0 <= k < 12
      ensures FieldLines[k] == DeclTokens(FixedFields[k]) + (if k == 2 then [] else [Comma])
    {
      var n := FixedFields[k].name;
      if |n| == 2 {
        DottedPair(n[0], n[1]);
        assert n == [n[0], n[1]];
      }
    }
  }

  /** Reads `#[::tracing::instrument(<arguments>)]` back into its argument tokens. */
  function InstrumentArguments(attr: TokenStream): Option<TokenStream>
  {
    if |attr| == 2 && attr[0] == Punct('#') && attr[1].Group? && attr[1].delimiter == Bracket
       && |attr[1].stream| == 7 && attr[1].stream[..6] == InstrumentPath
       && attr[1].stream[6].Group? && attr[1].stream[6].delimiter == Parenthesis
    then Some(attr[1].stream[6].stream)
    else None
  }

  /** Reads a leading `fields(<declarations>)` argument back into its declaration tokens. */
  function FieldDeclarations(args: TokenStream): Option<TokenStream>
  {
    if |args| >= 2 && args[0] == Ident("fields") && args[1].Group? && args[1].delimiter == Parenthesis
    then Some(args[1].stream)
    else None
  }

  /** Behind any prefix, the alternating extra declarations keep their layout, shifted by the prefix length. */
  lemma AlternatingAfterPrefix(prefix: TokenStream, fields: TokenStream, extra: TokenStream)
    requires AlternatesWithCommas(extra, 0, fields)
    ensures (prefix + extra)[..|prefix|] == prefix
    ensures AlternatesWithCommas(prefix + extra, |prefix|, fields)
  {
    var decls := prefix + extra;
    forall j | |prefix| <= j < |decls|
      ensures (j - |prefix|) / 2 < |fields|
      ensures decls[j] == if (j - |prefix|) % 2 == 0 then fields[(j - |prefix|) / 2] else Comma
    {
      assert decls[j] == extra[j - |prefix|];
    }
  }

  /** `#(#fields),*` over the extra token trees: tree `k` at offset `2k`, a comma at every odd offset. */
  function ExtraDeclarations(fields: TokenStream): (r: TokenStream)
    ensures AlternatesWithCommas(r, 0, fields)
  {
    SeparatedSingletons(fields);
    Separated(Singletons(fields))
  }

  /**
   * `fields(<fixed prefix> #(#fields),*)`. Read back, its declarations are
   * the fixed prefix, then each extra token tree at an even offset with a
   * comma at every odd offset.
   */
  function FieldsArgument(fields: TokenStream): (r: TokenStream)
    ensures |r| == 2 && FieldDeclarations(r).Some?
    ensures var decls := FieldDeclarations(r).value;
      AlternatesWithCommas(decls, |FieldPrefix|, fields) && decls[..|FieldPrefix|] == FieldPrefix
  {
    FieldsGroup(FieldPrefix, fields);
    [Ident("fields"), Group(Parenthesis, FieldPrefix + ExtraDeclarations(fields))]
  }

  /** `fields(<prefix> #(#fields),*)` for any prefix reads back as the prefix, then the alternating extra declarations. */
  lemma FieldsGroup(prefix: TokenStream, fields: TokenStream)
    ensures var r := [Ident("fields"), Group(Parenthesis, prefix + ExtraDeclarations(fields))];
      && FieldDeclarations(r) == Some(prefix + ExtraDeclarations(fields))
      && var decls := FieldDeclarations(r).value;
      AlternatesWithCommas(decls, |prefix|, fields) && decls[..|prefix|] == prefix
  {
    AlternatingAfterPrefix(prefix, fields, ExtraDeclarations(fields));
  }

  /**
   * The whole attribute. Read back, it is `::tracing::instrument` whose
   * first argument is the `fields(...)` group, and the first pass-through
   * entry reads back from the tokens right after that group, with no comma
   * between them. `InstrumentAttributeEntries` places every other entry.
   */
  function InstrumentAttribute(fields: TokenStream, passThrough: seq<Meta>): (r: TokenStream)
    ensures InstrumentArguments(r).Some?
    ensures |InstrumentArguments(r).value| >= 2
    ensures InstrumentArguments(r).value[..2] == FieldsArgument(fields)
    ensures |passThrough| > 0 ==>
      var args := InstrumentArguments(r).value;
      && |args| >= 2 + |MetaTokens(passThrough[0])|
      && ParseMeta(args[2..2 + |MetaTokens(passThrough[0])|]) == Some(passThrough[0])
  {
    var rest := Separated(MetaTokensEach(passThrough));
    var args := FieldsArgument(fields) + rest;
    var inner := InstrumentPath + [Group(Parenthesis, args)];
    assert inner[..6] == InstrumentPath;
    assert args[..2] == FieldsArgument(fields);
    assert |passThrough| > 0 ==> args[2..2 + |MetaTokens(passThrough[0])|] == MetaTokens(passThrough[0]) by {
      if |passThrough| > 0 {
        var first := MetaTokens(passThrough[0]);
        assert rest[..|first|] == first;
        assert args[2..2 + |first|] == rest[..|first|];
      }
    }
    [Punct('#'), Group(Bracket, inner)]
  }

  /**
   * Read back, the attribute is `::tracing::instrument` whose first argument
   * is `fields(...)`: its declarations are the fixed prefix, then each extra
   * token tree at an even offset with a comma at every odd offset. After
   * the closing parenthesis come the joined pass-through entries and nothing
   * else, the first one directly, without a separating comma.
   * `InstrumentAttributeEntries` places the others.
   */
  lemma {:induction false} InstrumentAttributeLayout(fields: TokenStream, passThrough: seq<Meta>)
    ensures InstrumentArguments(InstrumentAttribute(fields, passThrough)).Some?
    ensures var args := InstrumentArguments(InstrumentAttribute(fields, passThrough)).value;
      && FieldDeclarations(args).Some?
      && args[2..] == Separated(MetaTokensEach(passThrough))
      && |args| == 2 + TotalLength(MetaTokensEach(passThrough)) + (if |passThrough| == 0 then 0 else |passThrough| - 1)
      && (|passThrough| > 0 ==> |args| > 2 && args[2] != Comma
                                && args[2..2 + |MetaTokens(passThrough[0])|] == MetaTokens(passThrough[0]))
    ensures var decls := FieldDeclarations(InstrumentArguments(InstrumentAttribute(fields, passThrough)).value).value;
      AlternatesWithCommas(decls, |FieldPrefix|, fields) && decls[..|FieldPrefix|] == FieldPrefix
  {
    AttributeArguments(fields, passThrough);
    var head := FieldsArgument(fields);
    EntriesAfterHead(head, passThrough);
    var args := head + Separated(MetaTokensEach(passThrough));
    assert args[0] == head[0] && args[1] == head[1];
  }

  /** Behind a two-token head, the joined entries start at offset 2, the first one directly. */
  lemma EntriesAfterHead(head: TokenStream, passThrough: seq<Meta>)
    requires |head| == 2
    ensures var args := head + Separated(MetaTokensEach(passThrough));
      && args[2..] == Separated(MetaTokensEach(passThrough))
      && |args| == 2 + TotalLength(MetaTokensEach(passThrough)) + (if |passThrough| == 0 then 0 else |passThrough| - 1)
      && (|passThrough| > 0 ==> |args| > 2 && args[2] != Comma
                                && args[2..2 + |MetaTokens(passThrough[0])|] == MetaTokens(passThrough[0]))
  {
    var rest := Separated(MetaTokensEach(passThrough));
    var args := head + rest;
    assert args[2..] == rest;
    if |passThrough| > 0 {
      MetaTokensStartWithPath(passThrough[0]);
    }
  }

  /**
   * `#(#instrument_args),*` inside the attribute: the printed form of
   * pass-through entry `k` sits at `2 + ItemStart(..., k)`, right after the
   * two-token `fields(...)` argument and the entries and commas before it,
   * and a comma comes just before it when `k > 0`.
   */
  lemma InstrumentAttributeEntries(fields: TokenStream, passThrough: seq<Meta>)
    ensures InstrumentArguments(InstrumentAttribute(fields, passThrough)).Some?
    ensures var args := InstrumentArguments(InstrumentAttribute(fields, passThrough)).value;
      ItemsPlaced(args, MetaTokensEach(passThrough), 2) && CommasPlaced(args, MetaTokensEach(passThrough), 2)
  {
    AttributeArguments(fields, passThrough);
    SeparatedAfter(FieldsArgument(fields), MetaTokensEach(passThrough));
  }

  /** The arguments of the attribute are the `fields(...)` group followed by the joined pass-through entries. */
  lemma AttributeArguments(fields: TokenStream, passThrough: seq<Meta>)
    ensures InstrumentArguments(InstrumentAttribute(fields, passThrough))
         == Some(FieldsArgument(fields) + Separated(MetaTokensEach(passThrough)))
  {
  }

  /** With no arguments at all, the attribute declares exactly the fixed fields and passes nothing through. */
  lemma EmptyArgumentsAttribute()
    ensures InstrumentArguments(InstrumentAttribute([], [])) == Some(FieldsArgument([]))
    ensures FieldDeclarations(FieldsArgument([])) == Some(FieldPrefix)
  {
    var attr := InstrumentAttribute([], []);
    assert MetaTokensEach([]) == [];
    assert FieldsArgument([]) + Separated([]) == FieldsArgument([]);
    assert (InstrumentPath + [attr[1].stream[6]])[..6] == InstrumentPath;
    assert Singletons([]) == [];
    assert FieldPrefix + Separated([]) == FieldPrefix;
  }

  /**
   * `fields(x, y)` contributes three token trees, `x`, `,` and `y`, and each
   * is separated from the next, so the declarations end in `x , , , y`
   * rather than `x, y`.
   */
  lemma ExtraFieldsTokenSeparated(x: string, y: string)
    ensures FieldDeclarations(FieldsArgument([Ident(x), Comma, Ident(y)])) ==
      Some(FieldPrefix + [Ident(x), Comma, Comma, Comma, Ident(y)])
  {
    var ts := [Ident(x), Comma, Ident(y)];
    assert Singletons(ts) == [[Ident(x)], [Comma], [Ident(y)]];
    assert Singletons(ts)[1..] == [[Comma], [Ident(y)]];
    assert Singletons(ts)[2..] == [[Ident(y)]];
    assert Separated([[Comma], [Ident(y)]]) == [Comma, Comma, Ident(y)];
    assert Separated(Singletons(ts)) == [Ident(x), Comma, Comma, Comma, Ident(y)];
  }
}
