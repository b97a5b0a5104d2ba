/**
 * The form body of a private request: `urllib.parse.urlencode(payload)`,
 * which renders every value with `str()`, escapes key and value with
 * `quote_plus`, joins each pair with `=` and the pairs with `&`, in the
 * dict's insertion order. The escaping and the text of a float are library
 * code and are given as functions in a `Codec`.
 *
 * `ParseForm` is an independent reference decoder (what the exchange does
 * with the body): split on `&`, cut each field at its first `=`, unescape
 * both halves. The round trip `ParseForm(UrlEncode(p)) == Rendered(p)` says
 * that the body carries exactly the payload's pairs, in order.
 */
module Form {
  import opened PyDict

  /** A Python float. Payload floats are only passed through to `str()`. */
  type Float(==)

  /** A payload value: a `str`, an `int` or a `float`. */
  datatype Value = Str(s: string) | Int(i: int) | Num(f: Float)

  /** The library functions `urlencode` relies on. */
  datatype Codec = Codec(
    quotePlus: string -> string,  // urllib.parse.quote_plus
    floatStr: Float -> string     // str() of a float
  )

  /** `quote_plus` escapes both separators of a form body. */
  ghost predicate Escapes(quote: string -> string)
  {
    forall s :: '&' !in quote(s) && '=' !in quote(s)
  }

  /** `unquote` undoes `quote`. */
  ghost predicate Inverts(unquote: string -> string, quote: string -> string)
  {
    forall s :: unquote(quote(s)) == s
  }

  function DigitChar(d: nat): char
    requires d < 10
  {
    "0123456789"[d]
  }

  /** Decimal digits of a natural number, most significant first. */
  function NatText(n: nat): string
    decreases n
  {
    if n < 10 then [DigitChar(n)] else NatText(n / 10) + [DigitChar(n % 10)]
  }

  /** `str()` of a Python int. */
  function IntText(i: int): string
  {
    if i < 0 then "-" + NatText(-i) else NatText(i)
  }

  /** `str()` of a payload value (a `str` is its own text). */
  function Text(v: Value, c: Codec): string
  {
    match v
    case Str(s) => s
    case Int(i) => IntText(i)
    case Num(f) => c.floatStr(f)
  }

  /** The text of every entry, as the exchange reads the payload back. */
  function Rendered(p: Items<Value>, c: Codec): (r: Items<string>)
    ensures |r| == |p|
  {
    if p == [] then [] else [(p[0].0, Text(p[0].1, c))] + Rendered(p[1..], c)
  }

  /** One `key=value` field of the body. */
  function Field(e: (string, Value), c: Codec): string
  {
    c.quotePlus(e.0) + "=" + c.quotePlus(Text(e.1, c))
  }

  /** The fields of the body, one per entry, in insertion order. */
  function Fields(p: Items<Value>, c: Codec): (r: seq<string>)
    ensures |r| == |p|
    ensures forall i :: 0 <= i < |p| ==> r[i] == Field(p[i], c)
  {
    if p == [] then [] else [Field(p[0], c)] + Fields(p[1..], c)
  }

  /** `sep.join(parts)`. */
  function Join(parts: seq<string>, sep: char): string
  {
    if |parts| == 0 then ""
    else if |parts| == 1 then parts[0]
    else parts[0] + [sep] + Join(parts[1..], sep)
  }

  /** `urlencode(payload)`. */
  function UrlEncode(p: Items<Value>, c: Codec): string
  {
    Join(Fields(p, c), '&')
  }

  /** `s.split(sep)`. */
  function Split(s: string, sep: char): (r: seq<string>)
    ensures |r| >= 1
  {
    if s == [] then [""]
    else
      var rest := Split(s[1..], sep);
      if s[0] == sep then [""] + rest else [[s[0]] + rest[0]] + rest[1..]
  }

  /** `s.partition(sep)` without the separator: the text before its first occurrence and after it. */
  function Cut(s: string, sep: char): (string, string)
  {
    if s == [] then ("", "")
    else if s[0] == sep then ("", s[1..])
    else
      var rest := Cut(s[1..], sep);
      ([s[0]] + rest.0, rest.1)
  }

  /** Decodes each `key=value` field. */
  function ParseFields(fields: seq<string>, unquote: string -> string): (r: Items<string>)
    ensures |r| == |fields|
  {
    if fields == [] then []
    else
      var kv := Cut(fields[0], '=');
      [(unquote(kv.0), unquote(kv.1))] + ParseFields(fields[1..], unquote)
  }

  /** Reference decoder of a form body. */
  function ParseForm(body: string, unquote: string -> string): Items<string>
  {
    ParseFields(Split(body, '&'), unquote)
  }

  /** Joining one more part appends a separator and that part. */
  lemma {:induction false} JoinAppend(parts: seq<string>, last: string, sep: char)
    requires |parts| > 0
    ensures Join(parts + [last], sep) == Join(parts, sep) + [sep] + last
  {
    if |parts| > 1 {
      assert (parts + [last])[1..] == parts[1..] + [last];
      JoinAppend(parts[1..], last, sep);
    }
  }

  /** One more entry is one more field at the end. */
  lemma FieldsAppend(p: Items<Value>, e: (string, Value), c: Codec)
    ensures Fields(p + [e], c) == Fields(p, c) + [Field(e, c)]
  {
  }

  /** `urlencode` keeps insertion order: an entry added last is the last field of the body. */
  lemma UrlEncodeAppend(p: Items<Value>, e: (string, Value), c: Codec)
    requires |p| > 0
    ensures UrlEncode(p + [e], c) == UrlEncode(p, c) + "&" + Field(e, c)
  {
    FieldsAppend(p, e, c);
    JoinAppend(Fields(p, c), Field(e, c), '&');
  }

  /** One more entry is one more rendered pair at the end. */
  lemma {:induction false} RenderedAppend(p: Items<Value>, e: (string, Value), c: Codec)
    ensures Rendered(p + [e], c) == Rendered(p, c) + [(e.0, Text(e.1, c))]
  {
    if p != [] {
      assert (p + [e])[1..] == p[1..] + [e];
      RenderedAppend(p[1..], e, c);
    }
  }

  /** Rendering keeps the keys. */
  lemma {:induction false} RenderedKeys(p: Items<Value>, c: Codec)
    ensures Keys(Rendered(p, c)) == Keys(p)
  {
    if p != [] {
      assert Keys(p) == [p[0].0] + Keys(p[1..]);
      assert Keys(Rendered(p, c)) == [p[0].0] + Keys(Rendered(p[1..], c));
      RenderedKeys(p[1..], c);
    }
  }

  /** A text without the separator splits into itself. */
  lemma {:induction false} SplitPlain(a: string, sep: char)
    requires sep !in a
    ensures Split(a, sep) == [a]
  {
    if a != [] {
      SplitPlain(a[1..], sep);
      assert [a[0]] + a[1..] == a;
    }
  }

  /** The first separator ends the first piece. */
  lemma {:induction false} SplitSeparated(a: string, b: string, sep: char)
    requires sep !in a
    ensures Split(a + [sep] + b, sep) == [a] + Split(b, sep)
  {
    var s := a + [sep] + b;
    if a == [] {
      assert s[1..] == b;
    } else {
      assert s[0] == a[0] && s[1..] == a[1..] + [sep] + b;
      SplitSeparated(a[1..], b, sep);
      assert [a[0]] + a[1..] == a;
    }
  }

  /** Splitting undoes joining when no part holds the separator. */
  lemma {:induction false} SplitJoin(parts: seq<string>, sep: char)
    requires |parts| > 0
    requires forall i :: 0 <= i < |parts| ==> sep !in parts[i]
    ensures Split(Join(parts, sep), sep) == parts
  {
    if |parts| == 1 {
      SplitPlain(parts[0], sep);
    } else {
      SplitSeparated(parts[0], Join(parts[1..], sep), sep);
      SplitJoin(parts[1..], sep);
    }
  }

  /** Cutting at the first separator recovers both sides when the left one has none. */
  lemma {:induction false} CutSeparated(a: string, b: string, sep: char)
    requires sep !in a
    ensures Cut(a + [sep] + b, sep) == (a, b)
  {
    var s := a + [sep] + b;
    if a == [] {
      assert s[1..] == b;
    } else {
      assert s[0] == a[0] && s[1..] == a[1..] + [sep] + b;
      CutSeparated(a[1..], b, sep);
      assert [a[0]] + a[1..] == a;
    }
  }

  /** A text holding the separator is the part before its first occurrence, the separator and the rest. */
  lemma {:induction false} CutRejoins(s: string, sep: char)
    requires sep in s
    ensures sep !in Cut(s, sep).0
    ensures s == Cut(s, sep).0 + [sep] + Cut(s, sep).1
  {
    if s[0] != sep {
      assert s == [s[0]] + s[1..];
      CutRejoins(s[1..], sep);
    }
  }

  /** Every field decodes to its entry's key and value text. */
  lemma {:induction false} ParseFieldsOfFields(p: Items<Value>, c: Codec, unquote: string -> string)
    requires Escapes(c.quotePlus) && Inverts(unquote, c.quotePlus)
    ensures ParseFields(Fields(p, c), unquote) == Rendered(p, c)
  {
    if p != [] {
      var k, t := c.quotePlus(p[0].0), c.quotePlus(Text(p[0].1, c));
      assert '=' !in k;
      CutSeparated(k, t, '=');
      assert Fields(p, c)[1..] == Fields(p[1..], c);
      ParseFieldsOfFields(p[1..], c, unquote);
    }
  }

  /**
   * The body of a non-empty payload decodes to exactly the payload's keys
   * and value texts, in insertion order.
   */
  lemma ParseUrlEncode(p: Items<Value>, c: Codec, unquote: string -> string)
    requires |p| > 0
    requires Escapes(c.quotePlus) && Inverts(unquote, c.quotePlus)
    ensures ParseForm(UrlEncode(p, c), unquote) == Rendered(p, c)
  {
    var fields := Fields(p, c);
    forall i | 0 <= i < |fields|
      ensures '&' !in fields[i]
    {
      assert '&' !in c.quotePlus(p[i].0) && '&' !in c.quotePlus(Text(p[i].1, c));
    }
    SplitJoin(fields, '&');
    ParseFieldsOfFields(p, c, unquote);
  }

  /** Two payloads with the same body carry the same keys and value texts, in the same order. */
  lemma BodyDeterminesPairs(p: Items<Value>, q: Items<Value>, c: Codec, unquote: string -> string)
    requires |p| > 0 && |q| > 0
    requires Escapes(c.quotePlus) && Inverts(unquote, c.quotePlus)
    requires UrlEncode(p, c) == UrlEncode(q, c)
    ensures Rendered(p, c) == Rendered(q, c)
  {
    ParseUrlEncode(p, c, unquote);
    ParseUrlEncode(q, c, unquote);
  }
}
