# instrument_query, modelled in Dafny

`sqlx-datadog` provides one procedural-macro attribute, `#[instrument_query(...)]`.
It goes on an async function that runs an SQLx query. It rewrites the function so
that its `tracing` span carries the peer and database tags a Datadog APM backend
expects. The macro does three things in sequence, and this project models each of
them on immutable data:

1. **Argument classification** (`Classification`). One left-to-right pass over the
   attribute's `Meta` entries. The last `db = <expr>` entry sets the
   connection-handle expression; if there is none, the handle is the identifier
   `db`. The inner tokens of every `fields(...)` entry are concatenated into the
   extra-field token list. Every other entry is kept, in order, for
   `tracing::instrument`. Any `name = value` or `name(...)` entry whose name is
   not a single identifier makes `get_ident().unwrap()` panic, whatever the
   name. A bare path entry is never inspected.
2. **Statement injection** (`Injection`). Eight fixed statements are inserted at
   index 0 of the body one after another: a `use ::sqlx::ConnectOptions;` and
   seven `Span::current().record(...)` calls. Each call reads from the handle
   expression. The net effect is the reversed list ahead of the original
   statements.
3. **Attribute synthesis** (`Synthesis`, `Tokens`). The macro emits
   `#[::tracing::instrument(fields(<12 fixed declarations> <extra tokens>) <pass-through>)]`
   token for token, followed by the rewritten function (`Macro`).

The one runtime value the macro computes in its own code is the `db.system` tag:
the URL scheme passed through `str::replace("postgres", "postgresql")`. It is
modelled in `SchemeRewrite`, with Rust's leftmost, non-overlapping replacement
semantics.

Token streams are sequences of token trees (`Ident`, `Punct`, `Literal`,
`Group`). The `::` separator is two `':'` punctuation tokens. Attribute paths are
syn's mod-style paths: an optional leading `::`, then at least one segment, with
no generic arguments. The annotated function stays structured: its attributes,
visibility and signature are opaque token streams, and its body is a sequence of
statements.

## Quirks of the emitted code, modelled as written

- `#(#fields),*` iterates a `Vec<TokenTree>`, so a comma goes between every pair of
  token trees, not between fields. `fields(x, y)` holds the three token trees `x`,
  `,` and `y`, so the attribute ends its declarations with `x , , , y`
  (`Synthesis.ExtraFieldsTokenSeparated`).
- There is no comma after `component = "sqlx"`, which runs straight into
  `operation` (`Synthesis.FieldPrefixDeclaresFixedFields`).
- There is no comma between the closing `fields(...)` and the first pass-through
  entry (`Synthesis.InstrumentAttribute`, `Synthesis.InstrumentAttributeLayout`,
  `Synthesis.InstrumentAttributeEntries`).
- `db.system` rewrites every occurrence of the substring `postgres`, so a scheme
  spelled `postgresql` is recorded as `postgresqlql`
  (`SchemeRewrite.DbSystemNotIdempotent`).
- A bare path entry (`Meta::Path`) is never inspected. Its name may have any
  number of segments, and it always passes through without failing
  (`Classification.PassThroughMembers`, `Classification.Classify`).

## Model

| member | source | states |
|---|---|---|
| `Classification.Classify` | src/lib.rs:36-56 | The loop panics exactly when some name-value or list entry has a path that is not one identifier, and it stops at the first such entry. Otherwise it yields the pass-through entries in order, the concatenated `fields(...)` tokens, and the value of the last `db = ...` entry, or `db` when there is none. |
| `Classification.Step` | src/lib.rs:41-55 | One pass of the loop body panics exactly on a malformed entry. Otherwise it moves the state on by what the reference definitions say that one entry contributes: a forwarded entry, field tokens, or a new handle. |
| `Classification.ClassifyFrom` | src/lib.rs:40-56 | The same loop started from any state: it appends the pass-through entries and field tokens to what was already gathered, and keeps the old handle unless some `db = ...` entry follows. |
| `Classification.HandleDefaultsToDb` | src/lib.rs:38-43 | With no `db = ...` entry, the handle expression is the identifier `db`. |
| `Classification.HandleIsLastDbBinding` | src/lib.rs:40-43 | The last `db = ...` entry wins: its value is the handle, whatever earlier bindings said. |
| `Classification.LastDbValueCons` | src/lib.rs:40-43 | An entry in front of the list changes the handle only when no later entry binds `db`. |
| `Classification.PassThroughMembers` | src/lib.rs:41-55 | An entry is forwarded exactly when it is neither a `db` name-value nor a `fields` list. This includes `db(...)` lists, `fields = ...` name-values and every bare path. |
| `Classification.ClassificationDistributes` | src/lib.rs:40-56 | Order is preserved: the pass-through entries and field tokens of `a ++ b` are those of `a` followed by those of `b`. |
| `Syntax.GetIdentIffSingleToken` | src/lib.rs:42-48 | syn's `get_ident`, which the loop unwraps, finds an identifier exactly when the path prints as that single identifier token. |
| `Syntax.MetaTokens` | src/lib.rs:93 | The printed form of a pass-through entry reads back as the same entry, so printing loses nothing: the path, then nothing, `= value`, or one delimited group. |
| `Syntax.MetaTokensStartWithPath` | src/lib.rs:93 | A printed pass-through entry is never empty and starts with its path (`::` or the first identifier), never with a comma. |
| `Injection.InjectedTags` | src/lib.rs:59-68 | The declared list is the reverse of the statements' final order. It has eight entries, the `use` comes last, and every `record` reads from the handle. |
| `Injection.InsertEachAtFront` | src/lib.rs:69-74 | The insertion loop adds every tag, and the original statements stay unchanged at the end. |
| `Injection.InsertAt` | src/lib.rs:70-73 | `Vec::insert` puts the new element at the index and shifts the rest one place right, with nothing lost. |
| `Injection.InsertEachAtFrontReverses` | src/lib.rs:69-74 | Inserting each element at index 0 in turn leaves the elements reversed ahead of the original sequence. |
| `Injection.InjectTags` | src/lib.rs:58-74 | The body grows by exactly eight statements and the original statements are an unchanged suffix. The first statement is `use ::sqlx::ConnectOptions;`, then the records of `db.system`, `db.name`, `db.instance`, `out.port`, `out.host`, `peer.hostname` and `peer.service`, every one reading from the handle expression. |
| `Injection.InjectedTagValues` | src/lib.rs:60-66 | Run against some connection options, the seven records store these values. `db.system` gets the scheme after the `postgres` rewrite. `db.name`, `db.instance` and `peer.service` get the database name. `out.host` and `peer.hostname` get the host, and `out.port` gets the port. |
| `Tokens.Separated` | src/lib.rs:91-93 | `#(#x),*` opens with the first item and puts a comma right after it when more items follow. Its length is the items' total length plus one less than the number of items. |
| `Tokens.SeparatedLayout` | src/lib.rs:91-93 | In `#(#x),*`, item `k` sits at the sum of the earlier items' lengths plus `k`, with a comma just before it when `k > 0`. With the length of `Tokens.Separated`, this fixes every token of the join. |
| `Tokens.SeparatedAfter` | src/lib.rs:91-93 | Behind any head, the joined items keep the same layout, shifted by the head's length. |
| `Tokens.SeparatedAppend` | src/lib.rs:91-93 | Joining two non-empty lists one after the other equals joining each and putting one comma between them. |
| `Tokens.SeparatedSingletons` | src/lib.rs:91 | `#(#fields),*` over token trees puts tree `k` at offset `2k` and a comma at every odd offset, for `2n-1` tokens in all (none when empty), as `Tokens.AlternatesWithCommas` spells out. |
| `Synthesis.FieldPrefixDeclaresFixedFields` | src/lib.rs:78-90 | The fixed part of `fields(...)` is the twelve fixed declarations in order: `span.kind`, `span.type`, `component` and `operation` with their literals, then eight bare names. Each is followed by a comma except `component = "sqlx"`, which runs straight into `operation`. |
| `Synthesis.FieldsArgument` | src/lib.rs:78-92 | Read back, the `fields(...)` group holds the fixed prefix, then each extra token tree at an even offset with a comma at every odd offset. |
| `Synthesis.InstrumentAttribute` | src/lib.rs:76-95 | Read back, the attribute is `::tracing::instrument`, and its first argument is the `fields(...)` group. The first pass-through entry reads back from the tokens directly after that group, with no comma between them. Where the later entries go is stated by `Synthesis.InstrumentAttributeEntries`. |
| `Synthesis.InstrumentAttributeLayout` | src/lib.rs:76-95 | The attribute reads back as `::tracing::instrument`. Its first argument is `fields(...)`, holding the fixed prefix and then the extra tokens, comma-separated. The arguments are two tokens longer than the printed pass-through entries plus one comma between each pair. The first entry directly follows the group, with no comma. |
| `Synthesis.InstrumentAttributeEntries` | src/lib.rs:93 | Pass-through entry `k` is printed two tokens past the sum of the earlier entries' printed lengths plus `k`. A comma comes just before it when `k > 0`. |
| `Synthesis.EntriesAfterHead` | src/lib.rs:92-93 | Behind a two-token head, the joined entries start at offset 2. The first entry comes directly, never a comma. |
| `Synthesis.EmptyArgumentsAttribute` | src/lib.rs:76-95 | With no arguments, the attribute's only argument is `fields(...)` holding exactly the fixed prefix. |
| `Synthesis.ExtraFieldsTokenSeparated` | src/lib.rs:91 | `fields(x, y)` adds `x , , , y` after the fixed prefix, because each token tree is separated. |
| `SchemeRewrite.Replace` | src/lib.rs:66 | `str::replace` leaves a string shorter than a non-empty pattern unchanged. It never shortens a string when the replacement is at least as long as the pattern. For an input of `n` characters, an empty pattern gives a result as long as `n` characters plus `n + 1` copies of the replacement. |
| `SchemeRewrite.ReplaceEmptyPattern` | src/lib.rs:66 | An empty pattern matches before every character and at the end. Copy `k` of the replacement starts after `k` earlier copies and `k` characters. Character `k` of the input follows it directly, and the last copy closes the result. |
| `SchemeRewrite.ReplaceWithoutMatch` | src/lib.rs:66 | `str::replace` returns a string with no occurrence of the pattern unchanged. |
| `SchemeRewrite.ReplaceKeepsPrefix` | src/lib.rs:66 | Text before the first place the pattern could start is copied unchanged. |
| `SchemeRewrite.ReplaceAtFirstMatch` | src/lib.rs:66 | Leftmost, non-overlapping replacement: the text before the first occurrence is kept, that occurrence becomes the replacement, and the scan resumes after it. |
| `SchemeRewrite.ReplaceGrows` | src/lib.rs:66 | With a longer replacement, the result is never shorter than the input, and it is strictly longer exactly when the pattern occurs. |
| `SchemeRewrite.DbSystem` | src/lib.rs:66 | The `db.system` value is never shorter than the scheme, and it equals the scheme exactly when the scheme contains no `postgres`. |
| `SchemeRewrite.DbSystemExamples` | src/lib.rs:66 | `postgres` is recorded as `postgresql`, and `mysql` as `mysql`. |
| `SchemeRewrite.DbSystemNotIdempotent` | src/lib.rs:66 | `postgresql` is recorded as `postgresqlql`, so applying the rewrite twice differs from applying it once. |
| `Macro.InstrumentQuery` | src/lib.rs:32-112 | The expansion fails exactly when classification panics, and it stops at the first bad entry. Otherwise the function keeps its attributes, visibility and signature. Its body is the eight tag statements in final order, reading from the last `db = ...` value or `db`, followed by the original statements. The attribute carries the concatenated `fields(...)` tokens and the pass-through entries. |
| `Macro.HandleOverrideReachesEveryRecord` | src/lib.rs:38-66 | When no entry is malformed, the expansion succeeds. After `db = conn`, with no later `db` binding, every injected `record` reads from `conn`. |
| `Macro.NoArguments` | src/lib.rs:36-95 | With no arguments, the expansion succeeds. The attribute declares only the fixed fields, and the handle is `db`. |

## Left out

- Parsing of the macro's input token streams (src/lib.rs:33-34) is not modelled. The model starts from the parsed `Meta` list and function, so a syntax error in either one has no counterpart.
- `syn::parse(tag.into()).unwrap()` (src/lib.rs:73) is not modelled. The eight injected statements are taken as already parsed, so a failure there has no counterpart.
- Injection.InjectTags: the handle's tokens are spliced in front of `.connect_options()` without parentheses. The model records the spliced tokens as the receiver. It does not model Rust precedence, under which a compound expression such as `a + b` would make only `b` the receiver.
- The runtime behaviour of the emitted code is out of scope: `tracing::Span::current().record`, the span lifecycle, and sqlx's `connect_options()` accessors are foreign libraries. Each `record` names its accessor symbolically. The only runtime computation modelled is the scheme's `str::replace`.
- `quote!` detail below the token-tree level is not modelled: spacing of punctuation, spans and hygiene. The function's own rendering to tokens is also left out, because it is not changed beyond its body.
- The unimplemented propagation-comment TODO (src/lib.rs:97-105) and the README doctest (src/lib.rs:17-30) are not modelled.
- `Vec::insert` panics when the index exceeds the length. The model makes this a precondition of `Injection.InsertAt`, because the macro only inserts at index 0.
- Classification.Classify: the path in `UnwrapOnNonIdent` only records which entry the loop stopped at. The compiler's actual error is the generic `Option::unwrap()` panic message, which does not name the path.
- Injection.InjectedTagValues: the connection options are four given values. The types sqlx's accessors return are not modelled: a `u16` port and a database name that may be absent.
