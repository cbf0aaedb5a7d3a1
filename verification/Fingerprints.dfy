/** The deduplication key of a finding: a hash of a JSON payload whose string escapes follow
    section 7 of RFC 8259. */
module Fingerprints {
  import opened Types
  import opened Seqs
  import opened Orders
  import opened Sorting

  // ---- JSON strings ----

  function HexDigit(v: int): char
    requires 0 <= v < 16
  {
    "0123456789abcdef"[v]
  }

  /** Quote, backslash and control characters are escaped, and the two line separators; characters
      special to HTML are not. */
  function Escape(c: char): string {
    if c == '\"' then "\\\""
    else if c == '\\' then "\\\\"
    else if c == 8 as char then "\\b"
    else if c == 12 as char then "\\f"
    else if c == '\n' then "\\n"
    else if c == '\r' then "\\r"
    else if c == '\t' then "\\t"
    else if c < ' ' then "\\u00" + [HexDigit(c as int / 16), HexDigit(c as int % 16)]
    else if c == 0x2028 as char then "\\u2028"
    else if c == 0x2029 as char then "\\u2029"
    else [c]
  }

  function EscapeAll(s: string): string {
    if s == [] then [] else Escape(s[0]) + EscapeAll(s[1..])
  }

  function Quote(s: string): string {
    "\"" + EscapeAll(s) + "\""
  }

  // ---- Reading them back ----

  function HexValue(c: char): Option<int> {
    if '0' <= c <= '9' then Some(c as int - '0' as int)
    else if 'a' <= c <= 'f' then Some(c as int - 'a' as int + 10)
    else if 'A' <= c <= 'F' then Some(c as int - 'A' as int + 10)
    else None
  }

  function ReadHex(t: string): Option<int>
    requires |t| == 4
  {
    var a, b, c, d := HexValue(t[0]), HexValue(t[1]), HexValue(t[2]), HexValue(t[3]);
    if a.Some? && b.Some? && c.Some? && d.Some?
    then Some(((a.value * 16 + b.value) * 16 + c.value) * 16 + d.value)
    else None
  }

  datatype Read<T> = Bad | Got(value: T, rest: string)

  /** One character of a JSON string, escaped or not. */
  function ReadChar(t: string): Read<char> {
    if t == [] || t[0] == '\"' || t[0] < ' ' then Bad
    else if t[0] != '\\' then Got(t[0], t[1..])
    else if |t| < 2 then Bad
    else if t[1] == '\"' || t[1] == '\\' || t[1] == '/' then Got(t[1], t[2..])
    else if t[1] == 'b' then Got(8 as char, t[2..])
    else if t[1] == 'f' then Got(12 as char, t[2..])
    else if t[1] == 'n' then Got('\n', t[2..])
    else if t[1] == 'r' then Got('\r', t[2..])
    else if t[1] == 't' then Got('\t', t[2..])
    else if t[1] == 'u' && |t| >= 6 then
      var v := ReadHex(t[2..6]);
      if v.Some? && (0 <= v.value < 0xD800 || 0xE000 <= v.value < 0x1_0000) then Got(v.value as char, t[6..]) else Bad
    else Bad
  }

  /** The rest of a JSON string after its opening quote. */
  function ReadString(t: string): Read<string>
    decreases |t|
  {
    if t == [] then Bad
    else if t[0] == '\"' then Got([], t[1..])
    else
      var c := ReadChar(t);
      if c.Bad? || |c.rest| >= |t| then Bad
      else
        var s := ReadString(c.rest);
        if s.Bad? then Bad else Got([c.value] + s.value, s.rest)
  }

  /** The hexadecimal escape of a control character reads back. */
  lemma HexRoundTrip(c: char)
    requires c < ' '
    ensures ReadHex("00" + [HexDigit(c as int / 16), HexDigit(c as int % 16)]) == Some(c as int)
  {
    var hi, lo := c as int / 16, c as int % 16;
    assert HexValue(HexDigit(hi)) == Some(hi);
    assert HexValue(HexDigit(lo)) == Some(lo);
  }

  lemma EscapeRoundTrip(c: char, rest: string)
    ensures ReadChar(Escape(c) + rest) == Got(c, rest)
    ensures Escape(c)[0] != '\"'
  {
    var t := Escape(c) + rest;
    if |Escape(c)| == 6 {
      assert t[2..6] == Escape(c)[2..];
      assert t[6..] == rest;
      if c < ' ' {
        HexRoundTrip(c);
        assert Escape(c)[2..] == "00" + [HexDigit(c as int / 16), HexDigit(c as int % 16)];
      } else {
        assert Escape(c)[2..] == if c == 0x2028 as char then "2028" else "2029";
      }
    } else {
      assert t[|Escape(c)|..] == rest;
    }
  }

  lemma ReadStep(c: char, tail: string)
    ensures var s := ReadString(tail);
            ReadString(Escape(c) + tail) == if s.Bad? then Bad else Got([c] + s.value, s.rest)
  {
    EscapeRoundTrip(c, tail);
  }

  /** A quoted string reads back, whatever follows it. */
  lemma {:induction false} QuoteRoundTrip(s: string, rest: string)
    ensures ReadString(EscapeAll(s) + ("\"" + rest)) == Got(s, rest)
  {
    if s == [] {
      assert EscapeAll(s) + ("\"" + rest) == "\"" + rest;
      assert ("\"" + rest)[1..] == rest;
    } else {
      var tail := EscapeAll(s[1..]) + ("\"" + rest);
      assert EscapeAll(s) + ("\"" + rest) == Escape(s[0]) + tail by {
        Regroup([], Escape(s[0]), EscapeAll(s[1..]), "\"" + rest);
      }
      ReadStep(s[0], tail);
      QuoteRoundTrip(s[1..], rest);
      assert s == [s[0]] + s[1..];
    }
  }

  lemma Regroup(h: string, u: string, v: string, x: string)
    ensures (h + (u + v)) + x == h + (u + (v + x))
    ensures (u + v) + x == u + (v + x)
  {
  }

  /** A common prefix can be taken off. */
  lemma Strip(p: string, x: string, y: string)
    requires p + x == p + y
    ensures x == y
  {
    assert (p + x)[|p|..] == x && (p + y)[|p|..] == y;
  }

  /** Where two texts begin with quoted strings, equal texts have equal strings and equal rests. */
  lemma QuoteInjective(a: string, x: string, b: string, y: string)
    requires Quote(a) + x == Quote(b) + y
    ensures a == b && x == y
  {
    var u, v := EscapeAll(a) + ("\"" + x), EscapeAll(b) + ("\"" + y);
    assert Quote(a) + x == "\"" + u && Quote(b) + y == "\"" + v;
    Strip("\"", u, v);
    QuoteRoundTrip(a, x);
    QuoteRoundTrip(b, y);
  }

  // ---- The payload ----

  function ListTail(xs: seq<string>): string {
    if xs == [] then "]" else "," + (Quote(xs[0]) + ListTail(xs[1..]))
  }

  function QuoteList(xs: seq<string>): string {
    if xs == [] then "[]" else "[" + (Quote(xs[0]) + ListTail(xs[1..]))
  }

  lemma {:induction false} ListTailInjective(xs: seq<string>, x: string, ys: seq<string>, y: string)
    requires ListTail(xs) + x == ListTail(ys) + y
    ensures xs == ys && x == y
    decreases |xs|, 1
  {
    assert (ListTail(xs) + x)[0] == if xs == [] then ']' else ',';
    assert (ListTail(ys) + y)[0] == if ys == [] then ']' else ',';
    if xs == [] {
      Strip("]", x, y);
    } else {
      ItemsInjective(",", xs, x, ys, y);
    }
  }

  lemma ItemsInjective(h: string, xs: seq<string>, x: string, ys: seq<string>, y: string)
    requires xs != [] && ys != []
    requires (h + (Quote(xs[0]) + ListTail(xs[1..]))) + x == (h + (Quote(ys[0]) + ListTail(ys[1..]))) + y
    ensures xs == ys && x == y
    decreases |xs|, 0
  {
    var u, v := ListTail(xs[1..]) + x, ListTail(ys[1..]) + y;
    Regroup(h, Quote(xs[0]), ListTail(xs[1..]), x);
    Regroup(h, Quote(ys[0]), ListTail(ys[1..]), y);
    Strip(h, Quote(xs[0]) + u, Quote(ys[0]) + v);
    QuoteInjective(xs[0], u, ys[0], v);
    ListTailInjective(xs[1..], x, ys[1..], y);
    assert xs == [xs[0]] + xs[1..] && ys == [ys[0]] + ys[1..];
  }

  lemma QuoteListInjective(xs: seq<string>, x: string, ys: seq<string>, y: string)
    requires QuoteList(xs) + x == QuoteList(ys) + y
    ensures xs == ys && x == y
  {
    assert (QuoteList(xs) + x)[1] == if xs == [] then ']' else '\"';
    assert (QuoteList(ys) + y)[1] == if ys == [] then ']' else '\"';
    if xs == [] {
      Strip("[]", x, y);
    } else {
      ItemsInjective("[", xs, x, ys, y);
    }
  }

  /** What is hashed: the payload object and the newline the encoder ends with. */
  function Payload(namespace: string, kind: string, parent: string, texts: seq<string>): string {
    "{\"namespace\":" + (Quote(namespace) + (",\"kind\":" + (Quote(kind) + (",\"parentObject\":" + (Quote(parent)
    + (",\"errorTexts\":" + (QuoteList(texts) + "}\n")))))))
  }

  lemma PayloadInjective(n: string, k: string, p: string, ts: seq<string>, n': string, k': string, p': string, ts': seq<string>)
    requires Payload(n, k, p, ts) == Payload(n', k', p', ts')
    ensures n == n' && k == k' && p == p' && ts == ts'
  {
    var c, c' := QuoteList(ts) + "}\n", QuoteList(ts') + "}\n";
    var b, b' := Quote(p) + (",\"errorTexts\":" + c), Quote(p') + (",\"errorTexts\":" + c');
    var a, a' := Quote(k) + (",\"parentObject\":" + b), Quote(k') + (",\"parentObject\":" + b');
    Strip("{\"namespace\":", Quote(n) + (",\"kind\":" + a), Quote(n') + (",\"kind\":" + a'));
    QuoteInjective(n, ",\"kind\":" + a, n', ",\"kind\":" + a');
    Strip(",\"kind\":", a, a');
    QuoteInjective(k, ",\"parentObject\":" + b, k', ",\"parentObject\":" + b');
    Strip(",\"parentObject\":", b, b');
    QuoteInjective(p, ",\"errorTexts\":" + c, p', ",\"errorTexts\":" + c');
    Strip(",\"errorTexts\":", c, c');
    QuoteListInjective(ts, "}\n", ts', "}\n");
  }

  // ---- The fingerprint ----

  datatype Failure = Failure(text: string)

  function TextOf(): Failure -> string {
    (f: Failure) => f.text
  }

  /** The error texts of a finding, or nothing when its error list is malformed. `parse` reads the
      serialised list; an empty one counts as no errors and is not read. */
  function Texts(parse: string -> Option<seq<Failure>>, f: Finding): Option<seq<string>> {
    if f.errors == "" then Some([])
    else match parse(f.errors) case None => None case Some(fs) => Some(Map(TextOf(), fs))
  }

  function Canonical(f: Finding, texts: seq<string>): string {
    Payload(f.namespace, f.kind, f.parent, Sort(StrLess, texts))
  }

  /** Nothing when the finding's error list is malformed, else the hash of its payload. */
  function Fingerprint(parse: string -> Option<seq<Failure>>, hash: string -> string, f: Finding): Option<string> {
    match Texts(parse, f)
    case None => None
    case Some(texts) => Some(hash(Canonical(f, texts)))
  }

  method FindingFingerprint(parse: string -> Option<seq<Failure>>, hash: string -> string, f: Finding) returns (fp: Option<string>)
    ensures fp == Fingerprint(parse, hash, f)
    ensures fp.None? <==> f.errors != "" && parse(f.errors).None?
  {
    var failures: seq<Failure> := [];
    if f.errors != "" {
      var parsed := parse(f.errors);
      if parsed.None? {
        return None;
      }
      failures := parsed.value;
    }
    var texts: seq<string> := [];
    for i := 0 to |failures|
      invariant texts == Map(TextOf(), failures[..i])
    {
      texts := texts + [failures[i].text];
    }
    assert failures[..|failures|] == failures;
    assert Map(TextOf(), failures) == texts && Texts(parse, f) == Some(texts);
    texts := Sort(StrLess, texts);
    return Some(hash(Payload(f.namespace, f.kind, f.parent, texts)));
  }

  /** Sorting makes any two listings of the same texts equal. */
  lemma SortCanonical(xs: seq<string>, ys: seq<string>)
    ensures Sort(StrLess, xs) == Sort(StrLess, ys) <==> multiset(xs) == multiset(ys)
  {
    if multiset(xs) == multiset(ys) {
      var dom := set x | x in xs;
      StringsLinear(dom);
      forall y | y in ys ensures y in dom {
        assert y in multiset(xs);
      }
      SortSorts(StrLess, xs, dom);
      SortSorts(StrLess, ys, dom);
      forall y | y in Sort(StrLess, xs) ensures y in dom {
        assert y in multiset(Sort(StrLess, xs));
      }
      SortedUnique(StrLess, Sort(StrLess, xs), Sort(StrLess, ys), dom);
    } else {
      assert multiset(Sort(StrLess, xs)) != multiset(Sort(StrLess, ys));
    }
  }

  /** The encoded payloads of two findings are equal exactly when namespace, kind, parent and the
      multiset of error texts are; nothing else about the findings matters. */
  lemma PayloadIsCanonical(f: Finding, xs: seq<string>, g: Finding, ys: seq<string>)
    ensures Canonical(f, xs) == Canonical(g, ys) <==>
            f.namespace == g.namespace && f.kind == g.kind && f.parent == g.parent && multiset(xs) == multiset(ys)
  {
    SortCanonical(xs, ys);
    if Canonical(f, xs) == Canonical(g, ys) {
      PayloadInjective(f.namespace, f.kind, f.parent, Sort(StrLess, xs), g.namespace, g.kind, g.parent, Sort(StrLess, ys));
    }
  }

  // ---- When two findings are one ----

  /** `fs` are the failures the finding was recorded with; an empty error list records none. */
  predicate Records(parse: string -> Option<seq<Failure>>, f: Finding, fs: seq<Failure>) {
    if f.errors == "" then fs == [] else parse(f.errors) == Some(fs)
  }

  /** How many of the failures have the text. */
  function Occurrences(fs: seq<Failure>, text: string): nat {
    if fs == [] then 0 else (if fs[0].text == text then 1 else 0) + Occurrences(fs[1..], text)
  }

  lemma {:induction false} OccurrencesCounted(fs: seq<Failure>, text: string)
    ensures multiset(Map(TextOf(), fs))[text] == Occurrences(fs, text)
  {
    if fs != [] {
      OccurrencesCounted(fs[1..], text);
      MapFirst(TextOf(), fs);
    }
  }

  /** Every text occurs equally often in both. */
  ghost predicate SameTexts(fs: seq<Failure>, gs: seq<Failure>) {
    forall text :: Occurrences(fs, text) == Occurrences(gs, text)
  }

  lemma SameTextsIff(fs: seq<Failure>, gs: seq<Failure>)
    ensures multiset(Map(TextOf(), fs)) == multiset(Map(TextOf(), gs)) <==> SameTexts(fs, gs)
  {
    var xs, ys := multiset(Map(TextOf(), fs)), multiset(Map(TextOf(), gs));
    forall text ensures xs[text] == ys[text] <==> Occurrences(fs, text) == Occurrences(gs, text) {
      OccurrencesCounted(fs, text);
      OccurrencesCounted(gs, text);
    }
    if xs == ys {
      forall text ensures Occurrences(fs, text) == Occurrences(gs, text) {
        assert xs[text] == ys[text];
      }
    }
    if SameTexts(fs, gs) {
      assert forall text :: xs[text] == ys[text];
    }
  }

  ghost predicate Injective(hash: string -> string) {
    forall a, b :: hash(a) == hash(b) ==> a == b
  }

  /** Findings are deduplicated as they should be: under a hash without collisions two findings have the
      same fingerprint if and only if namespace, kind and parent agree and every error text occurs among
      the failures of the one as often as among those of the other. */
  lemma FingerprintsAgreeIff(parse: string -> Option<seq<Failure>>, hash: string -> string,
                             f: Finding, fs: seq<Failure>, g: Finding, gs: seq<Failure>)
    requires Records(parse, f, fs) && Records(parse, g, gs) && Injective(hash)
    ensures Fingerprint(parse, hash, f).Some? && Fingerprint(parse, hash, g).Some?
    ensures Fingerprint(parse, hash, f) == Fingerprint(parse, hash, g) <==>
            && f.namespace == g.namespace && f.kind == g.kind && f.parent == g.parent
            && SameTexts(fs, gs)
  {
    var xs, ys := Map(TextOf(), fs), Map(TextOf(), gs);
    assert Texts(parse, f) == Some(xs) && Texts(parse, g) == Some(ys);
    PayloadIsCanonical(f, xs, g, ys);
    SameTextsIff(fs, gs);
  }
}
