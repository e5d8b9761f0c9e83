/**
 * The statements `instrument_query` puts at the top of the function body:
 * a `use` of sqlx's `ConnectOptions` and seven `record` calls on the current
 * span, each inserted at index 0 in turn.
 */
module Injection {
  import opened Tokens
  import opened SchemeRewrite

  /** What a recorded value is read from: `connect_options()` followed by one accessor. */
  datatype Accessor =
    | GetDatabase
    | GetHost
    | GetPort
    | PostgresqlScheme   // `to_url_lossy().scheme().replace("postgres", "postgresql")`

  /** A statement of the function body, already parsed. */
  datatype Stmt =
    | UseConnectOptions                                            // `use ::sqlx::ConnectOptions;`
    | RecordTag(key: string, receiver: TokenStream, accessor: Accessor)
      // `::tracing::Span::current().record(key, <receiver>.connect_options().<accessor>);`
    | UserStmt(tokens: TokenStream)                                 // a statement the user wrote

  /**
   * `injected_tags`, in the order the macro lists them: the reverse of their
   * final order in the body, so the `use` comes last and every `record`
   * reads from the handle.
   */
  function InjectedTags(handle: TokenStream): (r: seq<Stmt>)
    ensures r == Reverse(FinalTags(handle))
    ensures |r| == 8 && r[7] == UseConnectOptions
    ensures forall k :: 0 <= k < |r| && r[k].RecordTag? ==> r[k].receiver == handle
  {
    [ RecordTag("peer.service", handle, GetDatabase),
      RecordTag("peer.hostname", handle, GetHost),
      RecordTag("out.host", handle, GetHost),
      RecordTag("out.port", handle, GetPort),
      RecordTag("db.instance", handle, GetDatabase),
      RecordTag("db.name", handle, GetDatabase),
      RecordTag("db.system", handle, PostgresqlScheme),
      UseConnectOptions ]
  }

  /** `Vec::insert`: shifts everything from `index` on one place right. */
  function InsertAt<T>(v: seq<T>, index: nat, x: T): (r: seq<T>)
    requires index <= |v|
    ensures |r| == |v| + 1
    ensures r[index] == x
    ensures r[..index] == v[..index] && r[index + 1..] == v[index..]
  {
    v[..index] + [x] + v[index..]
  }

  /** The loop `for tag in injected_tags { stmts.insert(0, tag) }`: every tag is added and the original statements stay, unchanged, at the end. */
  function InsertEachAtFront<T>(tags: seq<T>, stmts: seq<T>): (r: seq<T>)
    ensures |r| == |tags| + |stmts|
    ensures r[|tags|..] == stmts
    decreases |tags|
  {
    if |tags| == 0 then stmts
    else InsertEachAtFront(tags[1..], InsertAt(stmts, 0, tags[0]))
  }

  /** Reference: the elements of `s` from last to first. */
  function Reverse<T>(s: seq<T>): (r: seq<T>)
    ensures |r| == |s|
  {
    seq(|s|, k requires 0 <= k < |s| => s[|s| - 1 - k])
  }

  /** Inserting each element at the front in turn leaves them reversed ahead of the original statements. */
  lemma {:induction false} InsertEachAtFrontReverses<T>(tags: seq<T>, stmts: seq<T>)
    ensures InsertEachAtFront(tags, stmts) == Reverse(tags) + stmts
    decreases |tags|
  {
    if |tags| > 0 {
      var next := InsertAt(stmts, 0, tags[0]);
      assert next == [tags[0]] + stmts;
      InsertEachAtFrontReverses(tags[1..], next);
      assert Reverse(tags) == Reverse(tags[1..]) + [tags[0]];
    }
  }

  /** The final order of the injected statements, as the body reads top to bottom. */
  function FinalTags(handle: TokenStream): seq<Stmt>
  {
    [ UseConnectOptions,
      RecordTag("db.system", handle, PostgresqlScheme),
      RecordTag("db.name", handle, GetDatabase),
      RecordTag("db.instance", handle, GetDatabase),
      RecordTag("out.port", handle, GetPort),
      RecordTag("out.host", handle, GetHost),
      RecordTag("peer.hostname", handle, GetHost),
      RecordTag("peer.service", handle, GetDatabase) ]
  }

  /**
   * The rewritten body: eight more statements, the user's statements an
   * unchanged suffix, the `use` first, and every `record` reading from the
   * handle expression.
   */
  function InjectTags(handle: TokenStream, stmts: seq<Stmt>): (r: seq<Stmt>)
    ensures |r| == |stmts| + 8
    ensures r[8..] == stmts
    ensures r[..8] == FinalTags(handle)
    ensures r[0] == UseConnectOptions
    ensures forall k :: 0 <= k < 8 && r[k].RecordTag? ==> r[k].receiver == handle
  {
    InsertEachAtFrontReverses(InjectedTags(handle), stmts);
    assert Reverse(InjectedTags(handle)) == FinalTags(handle);
    InsertEachAtFront(InjectedTags(handle), stmts)
  }

  /** The values sqlx's connection options expose; what each accessor returns is taken as given. */
  datatype ConnectOptions = ConnectOptions(database: string, host: string, port: int, scheme: string)

  /** A value recorded on the span: text, or the port number. */
  datatype TagValue = Text(text: string) | Number(number: int)

  /** What a `record` statement's accessor reads from the connection options; `db.system` gets the rewritten scheme. */
  function AccessorValue(a: Accessor, opts: ConnectOptions): TagValue
  {
    match a
    case GetDatabase => Text(opts.database)
    case GetHost => Text(opts.host)
    case GetPort => Number(opts.port)
    case PostgresqlScheme => Text(DbSystem(opts.scheme))
  }

  /** The tags the injected statements record, key and value, in the order they run. */
  function RecordedTags(stmts: seq<Stmt>, opts: ConnectOptions): seq<(string, TagValue)>
  {
    if |stmts| == 0 then []
    else if stmts[0].RecordTag? then [(stmts[0].key, AccessorValue(stmts[0].accessor, opts))] + RecordedTags(stmts[1..], opts)
    else RecordedTags(stmts[1..], opts)
  }

  /**
   * Run against some connection options, the injected statements record
   * `db.system` as the rewritten scheme, the database name as `db.name`,
   * `db.instance` and `peer.service`, the host as `out.host` and
   * `peer.hostname`, and the port as `out.port`.
   */
  lemma {:induction false} InjectedTagValues(handle: TokenStream, stmts: seq<Stmt>, opts: ConnectOptions)
    ensures RecordedTags(InjectTags(handle, stmts)[..8], opts) ==
      [ ("db.system", Text(DbSystem(opts.scheme))),
        ("db.name", Text(opts.database)),
        ("db.instance", Text(opts.database)),
        ("out.port", Number(opts.port)),
        ("out.host", Text(opts.host)),
        ("peer.hostname", Text(opts.host)),
        ("peer.service", Text(opts.database)) ]
  {
    var f := FinalTags(handle);
    assert InjectTags(handle, stmts)[..8] == f;
    assert RecordedTags(f[8..], opts) == [];
    assert f[7..][1..] == f[8..];
    assert RecordedTags(f[7..], opts) == [("peer.service", Text(opts.database))];
    assert f[6..][1..] == f[7..];
    assert RecordedTags(f[6..], opts) == [("peer.hostname", Text(opts.host))] + RecordedTags(f[7..], opts);
    assert f[5..][1..] == f[6..];
    assert RecordedTags(f[5..], opts) == [("out.host", Text(opts.host))] + RecordedTags(f[6..], opts);
    assert f[4..][1..] == f[5..];
    assert RecordedTags(f[4..], opts) == [("out.port", Number(opts.port))] + RecordedTags(f[5..], opts);
    assert f[3..][1..] == f[4..];
    assert RecordedTags(f[3..], opts) == [("db.instance", Text(opts.database))] + RecordedTags(f[4..], opts);
    assert f[2..][1..] == f[3..];
    assert RecordedTags(f[2..], opts) == [("db.name", Text(opts.database))] + RecordedTags(f[3..], opts);
    assert f[1..][1..] == f[2..];
    assert RecordedTags(f[1..], opts) == [("db.system", Text(DbSystem(opts.scheme)))] + RecordedTags(f[2..], opts);
    assert RecordedTags(f, opts) == RecordedTags(f[1..], opts);
  }
}
