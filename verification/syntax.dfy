/** The parts of syn's attribute syntax the macro inspects: `Meta` entries and their paths. */
module Syntax {
  import opened Wrappers
  import opened Tokens

  /**
   * A path as syn parses it inside an attribute (mod-style: no generic
   * arguments), with an optional leading `::` and at least one segment.
   */
  datatype ModPath = ModPath(leadingColon: bool, first: string, rest: seq<string>)

  /** One comma-separated entry of the macro's arguments: `a::b`, `a::b = expr` or `a::b(tokens)`. */
  datatype Meta =
    | Path(path: ModPath)
    | NameValue(path: ModPath, value: TokenStream)
    | List(path: ModPath, delimiter: Delimiter, tokens: TokenStream)

  /** The `::`-joined tokens of the segments: one identifier per segment, two `:` tokens between neighbours. */
  function SegmentTokens(first: string, rest: seq<string>): (r: TokenStream)
    ensures |r| == 1 + 3 * |rest|
    ensures r[0] == Ident(first)
    decreases |rest|
  {
    if |rest| == 0 then [Ident(first)]
    else [Ident(first), Punct(':'), Punct(':')] + SegmentTokens(rest[0], rest[1..])
  }

  function PathTokens(p: ModPath): TokenStream
  {
    (if p.leadingColon then [Punct(':'), Punct(':')] else []) + SegmentTokens(p.first, p.rest)
  }

  /** syn's `Path::get_ident`. */
  function GetIdent(p: ModPath): Option<string>
  {
    if !p.leadingColon && p.rest == [] then Some(p.first) else None
  }

  /** A path has an identifier exactly when it prints as that one identifier token, with no `::` anywhere. */
  lemma GetIdentIffSingleToken(p: ModPath)
    ensures GetIdent(p).Some? <==> |PathTokens(p)| == 1
    ensures GetIdent(p).Some? ==> PathTokens(p) == [Ident(GetIdent(p).value)]
  {
  }

  /** The tokens `quote` prints for a `Meta`: the path, then `= value` or the delimited group. Reading them back gives the entry again. */
  function MetaTokens(m: Meta): (r: TokenStream)
    ensures ParseMeta(r) == Some(m)
  {
    var after: TokenStream :=
      match m
      case Path(_) => []
      case NameValue(_, v) => [Punct('=')] + v
      case List(_, d, ts) => [Group(d, ts)];
    PathReadsBack(m.path, after);
    assert after == [] <==> m.Path?;
    assert m.NameValue? ==> after[0] == Punct('=') && after[1..] == m.value;
    PathTokens(m.path) + after
  }

  /** A printed path, followed by anything but `:`, reads back as itself with the leading `::` recognised. */
  lemma PathReadsBack(p: ModPath, after: TokenStream)
    requires after == [] || after[0] != Punct(':')
    ensures var ts := PathTokens(p) + after;
            var lead := |ts| >= 2 && ts[0] == Punct(':') && ts[1] == Punct(':');
            lead == p.leadingColon && ParseSegments(if lead then ts[2..] else ts) == Some((p.first, p.rest, after))
  {
    var segs := SegmentTokens(p.first, p.rest) + after;
    ParseSegmentsRoundTrip(p.first, p.rest, after);
    var ts := (if p.leadingColon then [Punct(':'), Punct(':')] else []) + segs;
    assert PathTokens(p) + after == ts;
    assert segs[0] == Ident(p.first);
    assert (if p.leadingColon then ts[2..] else ts) == segs;
  }

  /** Reads `ident (:: ident)*` off the front of a stream: the first segment, the others, and what follows. */
  function ParseSegments(ts: TokenStream): Option<(string, seq<string>, TokenStream)>
    decreases |ts|
  {
    if |ts| == 0 || !ts[0].Ident? then None
    else if |ts| >= 4 && ts[1] == Punct(':') && ts[2] == Punct(':') && ts[3].Ident? then
      match ParseSegments(ts[3..])
      case None => None
      case Some((f, r, after)) => Some((ts[0].name, [f] + r, after))
    else Some((ts[0].name, [], ts[1..]))
  }

  /** Reads one printed `Meta` back: an optional leading `::`, the path, then nothing, `= value` or one group. */
  function ParseMeta(ts: TokenStream): Option<Meta>
  {
    var lead := |ts| >= 2 && ts[0] == Punct(':') && ts[1] == Punct(':');
    match ParseSegments(if lead then ts[2..] else ts)
    case None => None
    case Some((first, rest, after)) =>
      var p := ModPath(lead, first, rest);
      if after == [] then Some(Path(p))
      else if after[0] == Punct('=') then Some(NameValue(p, after[1..]))
      else if |after| == 1 && after[0].Group? then Some(List(p, after[0].delimiter, after[0].stream))
      else None
  }

  /** Printed segments read back as themselves, whatever non-`:` token follows. */
  lemma {:induction false} ParseSegmentsRoundTrip(first: string, rest: seq<string>, after: TokenStream)
    requires after == [] || after[0] != Punct(':')
    ensures ParseSegments(SegmentTokens(first, rest) + after) == Some((first, rest, after))
    decreases |rest|
  {
    var ts := SegmentTokens(first, rest) + after;
    if |rest| == 0 {
      assert ts == [Ident(first)] + after;
      assert ts[1..] == after;
    } else {
      var tail := SegmentTokens(rest[0], rest[1..]);
      assert ts == [Ident(first), Punct(':'), Punct(':')] + (tail + after);
      assert ts[3..] == tail + after;
      ParseSegmentsRoundTrip(rest[0], rest[1..], after);
      assert [rest[0]] + rest[1..] == rest;
    }
  }

  /** Every printed entry opens with its path: a `::` or the first segment's identifier, never a comma. */
  lemma MetaTokensStartWithPath(m: Meta)
    ensures |MetaTokens(m)| > 0
    ensures MetaTokens(m)[0] == if m.path.leadingColon then Punct(':') else Ident(m.path.first)
  {
    var p := m.path;
    assert SegmentTokens(p.first, p.rest)[0] == Ident(p.first);
    assert PathTokens(p)[0] == if p.leadingColon then Punct(':') else Ident(p.first);
  }

  /** The printed form of each entry, one stream per entry. */
  function MetaTokensEach(ms: seq<Meta>): seq<TokenStream>
  {
    seq(|ms|, k requires 0 <= k < |ms| => MetaTokens(ms[k]))
  }
}
