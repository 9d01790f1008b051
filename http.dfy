/**
 * The shape of an HTTP request as the service facades hand it to the shared client:
 * a verb, a path relative to the base URL, and a body. Paths are kept as segments
 * so that which ids a path carries, and in which order, can be stated directly.
 */
module Http {
  import opened Types

  datatype Verb = Get | Post | Put | Delete

  /** A path segment: fixed text, or a number interpolated with `${...}`. */
  datatype Segment = Lit(name: string) | Id(n: int)

  type Path = seq<Segment>

  /** What a request sends. Facades pass the caller's payload through unchanged. */
  datatype Body =
    | NoBody
    | NameBody(name: string)
    | AttributeBody(attribute: AttributePayload)
    | AddonBody(addon: AddonForm)
    | VariantBody(info: VariantAttribute)
    | Multipart(form: FormData)

  datatype Request = Request(verb: Verb, path: Path, body: Body)

  /** The outcome of sending a request: the response body, or the failure that propagates to the caller. */
  datatype Reply<+D> = Resolved(data: D) | Rejected(message: string)

  /** The numbers a path interpolates, in order. */
  function Ids(path: Path): (r: seq<int>)
    ensures |r| <= |path|
    ensures forall n :: n in r <==> Id(n) in path
  {
    if path == [] then []
    else
      assert path == [path[0]] + path[1..];
      match path[0]
      case Lit(_) => Ids(path[1..])
      case Id(n) => [n] + Ids(path[1..])
  }

  function DigitChar(d: int): (c: char)
    requires 0 <= d < 10
    ensures '0' <= c <= '9'
  {
    ('0' as int + d) as char
  }

  /** The number a decimal digit stands for. */
  function DigitValue(c: char): int {
    c as int - '0' as int
  }

  /** The number a string of decimal digits denotes, most significant digit first. */
  function DecimalValue(s: string): int {
    if s == [] then 0 else DecimalValue(s[..|s| - 1]) * 10 + DigitValue(s[|s| - 1])
  }

  /** The number a decimal text with an optional leading '-' denotes. */
  function SignedValue(s: string): int {
    if s != [] && s[0] == '-' then -DecimalValue(s[1..]) else DecimalValue(s)
  }

  /** The decimal text of a natural number, as `${n}` writes it: digits only, no leading zero, denoting `n`. */
  function NatToString(n: nat): (r: string)
    ensures |r| >= 1
    ensures forall i :: 0 <= i < |r| ==> '0' <= r[i] <= '9'
    ensures r[0] == '0' ==> n == 0
    ensures DecimalValue(r) == n
  {
    if n < 10 then
      assert [DigitChar(n)][..0] == [];
      [DigitChar(n)]
    else
      var prefix := NatToString(n / 10);
      var r := prefix + [DigitChar(n % 10)];
      assert r[..|r| - 1] == prefix;
      r
  }

  /** The decimal text of an integer, with a leading '-' exactly when negative; it denotes `n`. */
  function IntToString(n: int): (r: string)
    ensures |r| >= 1
    ensures (r[0] == '-') <==> n < 0
    ensures SignedValue(r) == n
  {
    if n < 0 then
      var digits := NatToString(-n);
      assert ("-" + digits)[1..] == digits;
      "-" + digits
    else NatToString(n)
  }

  /** Different ids never render as the same text. */
  lemma IntToStringInjective(m: int, n: int)
    requires IntToString(m) == IntToString(n)
    ensures m == n
  {
    assert SignedValue(IntToString(m)) == SignedValue(IntToString(n));
  }

  function SegmentText(s: Segment): string {
    match s
    case Lit(name) => name
    case Id(n) => IntToString(n)
  }

  /** The path as text: each segment preceded by '/'. */
  function Render(path: Path): (r: string)
    ensures path == [] <==> r == []
    ensures path != [] ==> r[0] == '/'
  {
    if path == [] then "" else "/" + SegmentText(path[0]) + Render(path[1..])
  }

  /** A one-segment path renders as '/' followed by the segment's text. */
  lemma RenderSingle(s: Segment)
    ensures Render([s]) == "/" + SegmentText(s)
  {
    assert [s][1..] == [];
  }

  /** Rendering distributes over joining paths: each segment's text follows its own '/', in order. */
  lemma {:induction false} RenderConcat(p: Path, q: Path)
    decreases |p|
    ensures Render(p + q) == Render(p) + Render(q)
  {
    if p != [] {
      assert (p + q)[0] == p[0];
      assert (p + q)[1..] == p[1..] + q;
      RenderConcat(p[1..], q);
    } else {
      assert p + q == q;
    }
  }

  /** Two paths that differ only in their last id render differently: the id can be read back from the text. */
  lemma RenderedIdInjective(prefix: Path, m: int, n: int)
    requires Render(prefix + [Id(m)]) == Render(prefix + [Id(n)])
    ensures m == n
  {
    var t := Render(prefix);
    var x, y := "/" + IntToString(m), "/" + IntToString(n);
    RenderConcat(prefix, [Id(m)]);
    RenderConcat(prefix, [Id(n)]);
    RenderSingle(Id(m));
    RenderSingle(Id(n));
    assert t + x == t + y;
    assert x == (t + x)[|t|..] && y == (t + y)[|t|..];
    assert IntToString(m) == x[1..] && IntToString(n) == y[1..];
    IntToStringInjective(m, n);
  }
}
