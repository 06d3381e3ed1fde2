/** The flat JSON objects the client sends as request bodies.

    The client writes every body by hand, as text. The model gives each body a
    structured form, a list of key/value fields in the order they are written,
    and one serialiser for that form. `Decode` reads such a text back, and
    `DecodeSerialize` proves that it recovers the fields, for fields whose
    strings are `Plain`: no double quote, backslash or control character.
    The client interpolates strings without escaping them, so nothing is
    claimed for strings that contain one. */
module Json {

  import opened Wrappers
  import opened Text

  datatype Value =
    | Int(n: int)                 // written with "%d"
    | Fixed(hundredths: int)      // written with "%.2f"
    | Bool(b: bool)               // written as true / false
    | Str(s: string)              // written between double quotes, unescaped
    | Strs(items: seq<string>)    // an array of quoted strings

  datatype Field = Field(key: string, value: Value)

  // ---------------------------------------------------------------------------
  // Serialising

  function Quote(s: string): string {
    "\"" + s + "\""
  }

  /** The parts joined with one comma between neighbours and none at either end. */
  function Join(parts: seq<string>): string {
    if |parts| == 0 then ""
    else if |parts| == 1 then parts[0]
    else parts[0] + "," + Join(parts[1..])
  }

  function QuoteAll(items: seq<string>): (r: seq<string>)
    ensures |r| == |items|
    ensures forall i :: 0 <= i < |items| ==> r[i] == Quote(items[i])
  {
    seq(|items|, i requires 0 <= i < |items| => Quote(items[i]))
  }

  function Render(v: Value): string {
    match v
    case Int(n) => IntText(n)
    case Fixed(h) => FixedText(h)
    case Bool(b) => BoolText(b)
    case Str(s) => Quote(s)
    case Strs(items) => "[" + Join(QuoteAll(items)) + "]"
  }

  function RenderField(f: Field): string {
    Quote(f.key) + ":" + Render(f.value)
  }

  function RenderFields(fs: seq<Field>): (r: seq<string>)
    ensures |r| == |fs|
    ensures forall i :: 0 <= i < |fs| ==> r[i] == RenderField(fs[i])
  {
    seq(|fs|, i requires 0 <= i < |fs| => RenderField(fs[i]))
  }

  /** The request body for the given fields, in the given order. */
  function Serialize(fs: seq<Field>): string {
    "{" + Join(RenderFields(fs)) + "}"
  }

  function Keys(fs: seq<Field>): (r: seq<string>)
    ensures |r| == |fs|
    ensures forall i :: 0 <= i < |fs| ==> r[i] == fs[i].key
  {
    seq(|fs|, i requires 0 <= i < |fs| => fs[i].key)
  }

  lemma KeysAppend(a: seq<Field>, b: seq<Field>)
    ensures Keys(a + b) == Keys(a) + Keys(b)
  {
  }

  /** The keys stand in strictly increasing rank: a fixed order, with no key
      written twice. */
  predicate Ascending(keys: seq<string>, rank: string -> nat) {
    forall i, j :: 0 <= i < j < |keys| ==> rank(keys[i]) < rank(keys[j])
  }

  /** Every key ranks below `bound`. */
  predicate RankedBelow(keys: seq<string>, rank: string -> nat, bound: nat) {
    forall i :: 0 <= i < |keys| ==> rank(keys[i]) < bound
  }

  /** Keys ranked below `bound`, followed by keys ranked from `bound` up to
      `top`, stay in order and rank below `top`. */
  lemma AscendingAppend(keys: seq<string>, extra: seq<string>, rank: string -> nat, bound: nat, top: nat)
    requires Ascending(keys, rank) && RankedBelow(keys, rank, bound)
    requires Ascending(extra, rank) && RankedBelow(extra, rank, top) && bound <= top
    requires forall j :: 0 <= j < |extra| ==> bound <= rank(extra[j])
    ensures Ascending(keys + extra, rank) && RankedBelow(keys + extra, rank, top)
  {
    var all := keys + extra;
    forall i, j | 0 <= i < j < |all| ensures rank(all[i]) < rank(all[j]) {
      if j < |keys| {
        assert all[i] == keys[i] && all[j] == keys[j];
      } else if i < |keys| {
        assert all[i] == keys[i] && all[j] == extra[j - |keys|];
      } else {
        assert all[i] == extra[i - |keys|] && all[j] == extra[j - |keys|];
      }
    }
    forall i | 0 <= i < |all| ensures rank(all[i]) < top {
      if i < |keys| {
        assert all[i] == keys[i];
      } else {
        assert all[i] == extra[i - |keys|];
      }
    }
  }

  /** `[key]` when `present`, and nothing otherwise. */
  function KeyIf(present: bool, key: string): seq<string> {
    if present then [key] else []
  }

  /** An optional key of rank `bound` after keys ranked below it. */
  lemma AscendingKeyIf(keys: seq<string>, present: bool, key: string, rank: string -> nat, bound: nat)
    requires Ascending(keys, rank) && RankedBelow(keys, rank, bound) && rank(key) == bound
    ensures Ascending(keys + KeyIf(present, key), rank) && RankedBelow(keys + KeyIf(present, key), rank, bound + 1)
  {
    AscendingAppend(keys, KeyIf(present, key), rank, bound, bound + 1);
  }

  /** A string the client can interpolate into a JSON string literal as it
      is: no quote, no backslash and no control character (section 7 of
      RFC 8259 gives each of these a meaning or forbids it raw). */
  predicate Plain(s: string) {
    && '"' !in s
    && '\\' !in s
    && forall i :: 0 <= i < |s| ==> s[i] >= ' '
  }

  predicate WellFormedValue(v: Value) {
    match v
    case Str(s) => Plain(s)
    case Strs(items) => forall i :: 0 <= i < |items| ==> Plain(items[i])
    case _ => true
  }

  /** Fields whose keys and strings can be read back unambiguously. */
  predicate WellFormed(fs: seq<Field>) {
    forall i :: 0 <= i < |fs| ==> Plain(fs[i].key) && WellFormedValue(fs[i].value)
  }

  lemma WellFormedAppend(a: seq<Field>, b: seq<Field>)
    requires WellFormed(a) && WellFormed(b)
    ensures WellFormed(a + b)
  {
    forall i | 0 <= i < |a + b| ensures Plain((a + b)[i].key) && WellFormedValue((a + b)[i].value) {
      if i < |a| {
        assert (a + b)[i] == a[i];
      } else {
        assert (a + b)[i] == b[i - |a|];
      }
    }
  }

  lemma ItemsAppend(a: seq<string>, b: seq<string>)
    requires WellFormedValue(Strs(a)) && WellFormedValue(Strs(b))
    ensures WellFormedValue(Strs(a + b))
  {
    forall i | 0 <= i < |a + b| ensures Plain((a + b)[i]) {
      if i < |a| {
        assert (a + b)[i] == a[i];
      } else {
        assert (a + b)[i] == b[i - |a|];
      }
    }
  }

  /** Appending one more part puts exactly one comma before it, and none when
      it is the first part: the rule the client's "comma" flags implement. */
  lemma {:induction false} JoinSnoc(parts: seq<string>, p: string)
    ensures Join(parts + [p]) == if parts == [] then p else Join(parts) + "," + p
  {
    if |parts| == 0 {
      assert parts + [p] == [p];
    } else if |parts| == 1 {
      assert parts + [p] == [parts[0], p];
      assert [parts[0], p][1..] == [p];
    } else {
      var q := parts + [p];
      assert q[0] == parts[0] && q[1..] == parts[1..] + [p];
      JoinSnoc(parts[1..], p);
      assert Join(q) == parts[0] + "," + (Join(parts[1..]) + "," + p);
      Regroup4(parts[0], ",", Join(parts[1..]), ",", p);
      Regroup(parts[0] + ",", Join(parts[1..]) + ",", p);
      Regroup(parts[0] + ",", Join(parts[1..]), ",");
    }
  }

  /** The text of a body under construction, before its closing brace. */
  function Opened(fs: seq<Field>): string {
    "{" + Join(RenderFields(fs))
  }

  /** Appending a field to an open body writes a comma and the field. */
  lemma AppendField(fs: seq<Field>, f: Field)
    requires fs != []
    ensures Opened(fs + [f]) == Opened(fs) + ("," + RenderField(f))
  {
    var j, r := Join(RenderFields(fs)), RenderField(f);
    RenderFieldsSnoc(fs, f);
    JoinSnoc(RenderFields(fs), r);
    assert Join(RenderFields(fs + [f])) == j + "," + r;
    Regroup("{", j + ",", r);
    Regroup("{", j, ",");
    Regroup("{" + j, ",", r);
  }

  lemma Regroup(a: string, b: string, c: string)
    ensures a + b + c == a + (b + c)
  {
  }

  lemma Regroup4(x: string, a: string, b: string, c: string, d: string)
    ensures x + a + b + c + d == x + (a + b + c + d)
  {
  }

  /** A field after a comma: the quoted key, a colon and the value. */
  lemma FieldText(key: string, v: Value)
    ensures "," + RenderField(Field(key, v)) == ",\"" + key + "\":" + Render(v)
  {
  }

  /** Appending a field as the client writes it: a comma, the quoted key and
      a colon (`lead`), then the value's text. */
  lemma Append(fs: seq<Field>, key: string, v: Value, lead: string)
    requires fs != []
    requires lead == ",\"" + key + "\":"
    ensures Opened(fs + [Field(key, v)]) == Opened(fs) + (lead + Render(v))
  {
    AppendField(fs, Field(key, v));
    FieldText(key, v);
  }

  /** Appending an integer field, written with "%d". */
  lemma AppendInt(fs: seq<Field>, key: string, n: int, lead: string)
    requires fs != []
    requires lead == ",\"" + key + "\":"
    ensures Opened(fs + [Field(key, Int(n))]) == Opened(fs) + (lead + IntText(n))
  {
    Append(fs, key, Int(n), lead);
  }

  /** Appending an amount field, written with "%.2f". */
  lemma AppendFixed(fs: seq<Field>, key: string, h: int, lead: string)
    requires fs != []
    requires lead == ",\"" + key + "\":"
    ensures Opened(fs + [Field(key, Fixed(h))]) == Opened(fs) + (lead + FixedText(h))
  {
    Append(fs, key, Fixed(h), lead);
  }

  /** `payload += lead + "%d" % n` on a body whose fields so far are `fs`. */
  method WriteInt(payload: string, ghost fs: seq<Field>, key: string, lead: string, n: int)
    returns (written: string, ghost gs: seq<Field>)
    requires fs != [] && payload == Opened(fs)
    requires lead == ",\"" + key + "\":"
    ensures gs == fs + [Field(key, Int(n))] && written == Opened(gs)
  {
    AppendInt(fs, key, n, lead);
    written, gs := payload + (lead + IntText(n)), fs + [Field(key, Int(n))];
  }

  /** `payload += lead + "%.2f" % amount` on a body whose fields so far are `fs`. */
  method WriteFixed(payload: string, ghost fs: seq<Field>, key: string, lead: string, h: int)
    returns (written: string, ghost gs: seq<Field>)
    requires fs != [] && payload == Opened(fs)
    requires lead == ",\"" + key + "\":"
    ensures gs == fs + [Field(key, Fixed(h))] && written == Opened(gs)
  {
    AppendFixed(fs, key, h, lead);
    written, gs := payload + (lead + FixedText(h)), fs + [Field(key, Fixed(h))];
  }

  /** A string field opening a body: the brace, the quoted key, a colon and
      the quoted string. */
  lemma FirstStr(key: string, s: string)
    ensures Opened([Field(key, Str(s))]) == "{\"" + key + "\":\"" + s + "\""
  {
    FirstField(key, Str(s));
    Regroup("{\"" + key + "\":", "\"" + s, "\"");
    Regroup("{\"" + key + "\":", "\"", s);
    Regroup("{\"" + key, "\":", "\"");
  }

  /** An integer field opening a body, written with "%d". */
  lemma FirstInt(key: string, n: int)
    ensures Opened([Field(key, Int(n))]) == "{\"" + key + "\":" + IntText(n)
  {
    FirstField(key, Int(n));
  }

  /** A string field after others: a comma, the quoted key, a colon and the
      quoted string. */
  lemma NextStr(fs: seq<Field>, key: string, s: string)
    requires fs != []
    ensures Opened(fs + [Field(key, Str(s))]) == Opened(fs) + ",\"" + key + "\":\"" + s + "\""
  {
    var t := Opened(fs);
    Append(fs, key, Str(s), ",\"" + key + "\":");
    Regroup(t, ",\"" + key + "\":", Quote(s));
    Regroup(t + ",\"" + key + "\":", "\"" + s, "\"");
    Regroup(t + ",\"" + key + "\":", "\"", s);
    Regroup(t + ",\"" + key, "\":", "\"");
  }

  /** An integer field after others, written with "%d". */
  lemma NextInt(fs: seq<Field>, key: string, n: int)
    requires fs != []
    ensures Opened(fs + [Field(key, Int(n))]) == Opened(fs) + ",\"" + key + "\":" + IntText(n)
  {
    AppendInt(fs, key, n, ",\"" + key + "\":");
    Regroup(Opened(fs), ",\"" + key + "\":", IntText(n));
  }

  /** An amount field after others, written with "%.2f". */
  lemma NextFixed(fs: seq<Field>, key: string, h: int)
    requires fs != []
    ensures Opened(fs + [Field(key, Fixed(h))]) == Opened(fs) + ",\"" + key + "\":" + FixedText(h)
  {
    AppendFixed(fs, key, h, ",\"" + key + "\":");
    Regroup(Opened(fs), ",\"" + key + "\":", FixedText(h));
  }

  /** The separator the client writes before a field: a comma, except before
      the first one. */
  function Separator(fs: seq<Field>): string {
    if fs == [] then "" else ","
  }

  /** Appending a field behind its separator. */
  lemma AppendSep(fs: seq<Field>, f: Field)
    ensures Opened(fs + [f]) == Opened(fs) + (Separator(fs) + RenderField(f))
  {
    if fs == [] {
      assert [] + [f] == [f];
      assert RenderFields([f]) == [RenderField(f)];
    } else {
      AppendField(fs, f);
    }
  }

  /** Appending a boolean field behind its separator, as the client writes it. */
  lemma AppendBool(fs: seq<Field>, key: string, b: bool, lead: string)
    requires lead == Separator(fs) + "\"" + key + "\":"
    ensures Opened(fs + [Field(key, Bool(b))]) == Opened(fs) + (lead + BoolText(b))
  {
    AppendSep(fs, Field(key, Bool(b)));
    var sep := Separator(fs);
    assert RenderField(Field(key, Bool(b))) == "\"" + key + "\"" + ":" + BoolText(b);
    Regroup4(sep, "\"", key, "\"", ":");
    Regroup4(sep, "\"", key, "\":", BoolText(b));
    assert sep + ("\"" + key + "\"" + ":") == sep + "\"" + key + "\":";
  }

  /** Closing a body with a last string field behind its separator, as the
      client writes it: the string, its closing quote and the brace. */
  lemma CloseStr(fs: seq<Field>, key: string, s: string, lead: string)
    requires lead == Separator(fs) + "\"" + key + "\":\""
    ensures Serialize(fs + [Field(key, Str(s))]) == Opened(fs) + (lead + s + "\"}")
  {
    AppendSep(fs, Field(key, Str(s)));
    Close(fs + [Field(key, Str(s))]);
    StrFieldText(Separator(fs), key, s);
    Regroup(Opened(fs), Separator(fs) + RenderField(Field(key, Str(s))), "}");
  }

  lemma StrFieldText(sep: string, key: string, s: string)
    ensures sep + RenderField(Field(key, Str(s))) + "}" == sep + "\"" + key + "\":\"" + s + "\"}"
  {
    assert RenderField(Field(key, Str(s))) == "\"" + key + "\"" + ":" + ("\"" + s + "\"");
    Regroup4(sep, "\"", key, "\"", ":");
  }

  /** Appending an item to a string array writes a comma, except before the
      first item, and the quoted item. */
  lemma AppendItem(items: seq<string>, x: string)
    ensures Join(QuoteAll(items + [x])) == Join(QuoteAll(items)) + (if items == [] then "" else ",") + Quote(x)
  {
    assert QuoteAll(items + [x]) == QuoteAll(items) + [Quote(x)];
    JoinSnoc(QuoteAll(items), Quote(x));
    if items == [] {
      assert QuoteAll(items) == [];
    }
  }

  /** Closing an open body with a brace completes its serialisation. */
  lemma Close(fs: seq<Field>)
    ensures Serialize(fs) == Opened(fs) + "}"
  {
  }

  lemma RenderFieldsSnoc(fs: seq<Field>, f: Field)
    ensures RenderFields(fs + [f]) == RenderFields(fs) + [RenderField(f)]
  {
    var a, b := RenderFields(fs + [f]), RenderFields(fs) + [RenderField(f)];
    assert |a| == |b|;
    forall i | 0 <= i < |a| ensures a[i] == b[i] {
      if i < |fs| {
        assert (fs + [f])[i] == fs[i];
      } else {
        assert (fs + [f])[i] == f;
      }
    }
  }

  /** The first field of an open body follows the brace directly. */
  lemma FirstField(key: string, v: Value)
    ensures Opened([Field(key, v)]) == "{\"" + key + "\":" + Render(v)
  {
    assert RenderFields([Field(key, v)]) == [RenderField(Field(key, v))];
  }

  // ---------------------------------------------------------------------------
  // Reading a body back

  /** The text before the first double quote and the text after it. */
  function TakeUntilQuote(s: string): (r: Option<(string, string)>)
    ensures r.Some? ==> |r.value.1| < |s|
  {
    if |s| == 0 then None
    else if s[0] == '"' then Some(([], s[1..]))
    else
      match TakeUntilQuote(s[1..])
      case None => None
      case Some((a, b)) => Some(([s[0]] + a, b))
  }

  function ParseQuoted(s: string): (r: Option<(string, string)>)
    ensures r.Some? ==> |r.value.1| < |s|
  {
    if |s| == 0 || s[0] != '"' then None else TakeUntilQuote(s[1..])
  }

  /** A number: an optional minus sign, digits, and for a fixed-point amount a
      point followed by exactly two digits. */
  function ParseNumber(s: string): (r: Option<(Value, string)>)
    ensures r.Some? ==> |r.value.1| < |s|
  {
    var neg := |s| > 0 && s[0] == '-';
    var t := if neg then s[1..] else s;
    match ParseNat(t)
    case None => None
    case Some((m, u)) =>
      if |u| >= 3 && u[0] == '.' && IsDigit(u[1]) && IsDigit(u[2]) then
        var h := m * 100 + DigitValue(u[1]) * 10 + DigitValue(u[2]);
        Some((Fixed(if neg then -h else h), u[3..]))
      else
        Some((Int(if neg then -(m as int) else m), u))
  }

  /** The items of a string array, after its opening bracket. */
  function ParseItems(s: string): (r: Option<(seq<string>, string)>)
    ensures r.Some? ==> |r.value.1| < |s|
    decreases |s|
  {
    match ParseQuoted(s)
    case None => None
    case Some((x, u)) =>
      if |u| > 0 && u[0] == ',' then
        match ParseItems(u[1..])
        case None => None
        case Some((xs, w)) => Some(([x] + xs, w))
      else if |u| > 0 && u[0] == ']' then Some(([x], u[1..]))
      else None
  }

  function ParseStrs(s: string): (r: Option<(seq<string>, string)>)
    ensures r.Some? ==> |r.value.1| < |s|
  {
    if |s| < 2 || s[0] != '[' then None
    else if s[1] == ']' then Some(([], s[2..]))
    else ParseItems(s[1..])
  }

  function ParseValue(s: string): (r: Option<(Value, string)>)
    ensures r.Some? ==> |r.value.1| < |s|
  {
    if |s| == 0 then None
    else if s[0] == '"' then
      match ParseQuoted(s)
      case None => None
      case Some((x, u)) => Some((Str(x), u))
    else if s[0] == '[' then
      match ParseStrs(s)
      case None => None
      case Some((xs, u)) => Some((Strs(xs), u))
    else if |s| >= 4 && s[..4] == "true" then Some((Bool(true), s[4..]))
    else if |s| >= 5 && s[..5] == "false" then Some((Bool(false), s[5..]))
    else ParseNumber(s)
  }

  /** The members of an object, after its opening brace. */
  function ParseMembers(s: string): (r: Option<(seq<Field>, string)>)
    ensures r.Some? ==> |r.value.1| < |s|
    decreases |s|
  {
    match ParseQuoted(s)
    case None => None
    case Some((k, u)) =>
      if |u| == 0 || u[0] != ':' then None
      else
        match ParseValue(u[1..])
        case None => None
        case Some((v, w)) =>
          if |w| > 0 && w[0] == ',' then
            match ParseMembers(w[1..])
            case None => None
            case Some((fs, x)) => Some(([Field(k, v)] + fs, x))
          else if |w| > 0 && w[0] == '}' then Some(([Field(k, v)], w[1..]))
          else None
  }

  /** The fields of a whole body, or None when it is not a flat object. */
  function Decode(s: string): Option<seq<Field>> {
    if |s| < 2 || s[0] != '{' then None
    else if s[1] == '}' then (if |s| == 2 then Some([]) else None)
    else
      match ParseMembers(s[1..])
      case None => None
      case Some((fs, rest)) => if rest == [] then Some(fs) else None
  }

  // ---------------------------------------------------------------------------
  // Round trip

  /** What may follow a value inside an object. */
  predicate Delimited(rest: string) {
    |rest| > 0 && (rest[0] == ',' || rest[0] == '}')
  }

  lemma {:induction false} TakeUntilQuoteRoundTrip(a: string, rest: string)
    requires Plain(a)
    ensures TakeUntilQuote(a + "\"" + rest) == Some((a, rest))
  {
    var s := a + "\"" + rest;
    if |a| == 0 {
      assert s == "\"" + rest;
    } else {
      assert s[0] == a[0];
      assert s[1..] == a[1..] + "\"" + rest;
      TakeUntilQuoteRoundTrip(a[1..], rest);
      assert [a[0]] + a[1..] == a;
    }
  }

  lemma QuoteRoundTrip(a: string, rest: string)
    requires Plain(a)
    ensures ParseQuoted(Quote(a) + rest) == Some((a, rest))
  {
    var s := Quote(a) + rest;
    assert s[1..] == a + "\"" + rest;
    TakeUntilQuoteRoundTrip(a, rest);
  }

  lemma IntRoundTrip(n: int, rest: string)
    requires Delimited(rest)
    ensures ParseNumber(IntText(n) + rest) == Some((Int(n), rest))
  {
    var m := if n < 0 then -n else n;
    var t := NatText(m) + rest;
    ParseNatText(m, rest);
    assert IsDigit(t[0]);
    if n < 0 {
      Regroup("-", NatText(m), rest);
    }
    ParseIntShape(IntText(n) + rest, n < 0, t, m, rest);
  }

  /** How ParseNumber reads a sign and a whole number followed by a delimiter. */
  lemma ParseIntShape(s: string, neg: bool, t: string, w: nat, u: string)
    requires s == (if neg then "-" + t else t)
    requires !neg ==> |t| > 0 && t[0] != '-'
    requires ParseNat(t) == Some((w, u))
    requires Delimited(u)
    ensures ParseNumber(s) == Some((Int(if neg then -(w as int) else w), u))
  {
    if neg {
      assert s[1..] == t;
    }
  }

  /** The text of a number starts with a minus sign or a digit. */
  lemma NumberStart(n: int, h: int)
    ensures |IntText(n)| > 0 && (IntText(n)[0] == '-' || IsDigit(IntText(n)[0]))
    ensures |FixedText(h)| > 0 && (FixedText(h)[0] == '-' || IsDigit(FixedText(h)[0]))
  {
    var m := if h < 0 then -h else h;
    var whole := NatText(m / 100) + "." + [DigitChar(m % 100 / 10), DigitChar(m % 10)];
    assert whole[0] == NatText(m / 100)[0];
  }

  /** The digits "%.2f" writes after the point carry the remainder exactly. */
  lemma HundredthsSplit(m: nat)
    ensures (m / 100) * 100 + (m % 100 / 10) * 10 + m % 10 == m
  {
  }

  /** How ParseNumber reads a sign, a whole part and two decimals. */
  lemma ParseFixedShape(s: string, neg: bool, t: string, w: nat, u: string, h: int)
    requires s == (if neg then "-" + t else t)
    requires !neg ==> |t| > 0 && t[0] != '-'
    requires ParseNat(t) == Some((w, u))
    requires |u| >= 3 && u[0] == '.' && IsDigit(u[1]) && IsDigit(u[2])
    requires h == w * 100 + DigitValue(u[1]) * 10 + DigitValue(u[2])
    ensures ParseNumber(s) == Some((Fixed(if neg then -h else h), u[3..]))
  {
    if neg {
      assert s[1..] == t;
    }
  }

  lemma FixedRoundTrip(h: int, rest: string)
    requires Delimited(rest)
    ensures ParseNumber(FixedText(h) + rest) == Some((Fixed(h), rest))
  {
    var m := if h < 0 then -h else h;
    var d1, d2 := DigitChar(m % 100 / 10), DigitChar(m % 10);
    var u := "." + [d1, d2] + rest;
    var t := NatText(m / 100) + u;
    FixedTextSplit(h, rest);
    ParseNatText(m / 100, u);
    Fraction(m, rest);
    ParseFixedShape(FixedText(h) + rest, h < 0, t, m / 100, u, m);
  }

  /** The text of an amount: a sign when negative, the whole part, then a
      point and the two digits of the hundredths. */
  lemma FixedTextSplit(h: int, rest: string)
    ensures var m := if h < 0 then -h else h;
      var t := NatText(m / 100) + ("." + [DigitChar(m % 100 / 10), DigitChar(m % 10)] + rest);
      FixedText(h) + rest == (if h < 0 then "-" + t else t) && t[0] != '-'
  {
    var m := if h < 0 then -h else h;
    var n, f := NatText(m / 100), "." + [DigitChar(m % 100 / 10), DigitChar(m % 10)];
    assert FixedText(h) == (if h < 0 then "-" + (n + f) else n + f);
    Regroup(n, f, rest);
    if h < 0 {
      Regroup("-", n + f, rest);
    }
    assert (n + (f + rest))[0] == n[0];
  }

  /** The two digits after the point read back as the hundredths. */
  lemma Fraction(m: nat, rest: string)
    ensures var d1, d2 := DigitChar(m % 100 / 10), DigitChar(m % 10);
      var u := "." + [d1, d2] + rest;
      && |u| >= 3 && u[0] == '.' && IsDigit(u[1]) && IsDigit(u[2]) && u[3..] == rest
      && (m / 100) * 100 + DigitValue(u[1]) * 10 + DigitValue(u[2]) == m
  {
    var d1, d2 := DigitChar(m % 100 / 10), DigitChar(m % 10);
    var u := "." + [d1, d2] + rest;
    assert u[1] == d1 && u[2] == d2 && u[3..] == rest;
    HundredthsSplit(m);
  }

  lemma {:induction false} ItemsRoundTrip(items: seq<string>, rest: string)
    requires |items| > 0
    requires forall i :: 0 <= i < |items| ==> Plain(items[i])
    ensures ParseItems(Join(QuoteAll(items)) + "]" + rest) == Some((items, rest))
  {
    var qs := QuoteAll(items);
    if |items| == 1 {
      assert Join(qs) == Quote(items[0]);
      QuoteRoundTrip(items[0], "]" + rest);
      assert Join(qs) + "]" + rest == Quote(items[0]) + ("]" + rest);
      assert [items[0]] == items;
    } else {
      var tail := Join(QuoteAll(items[1..])) + "]" + rest;
      assert qs[1..] == QuoteAll(items[1..]);
      assert Join(qs) + "]" + rest == Quote(items[0]) + ("," + tail);
      QuoteRoundTrip(items[0], "," + tail);
      assert ("," + tail)[1..] == tail;
      ItemsRoundTrip(items[1..], rest);
      assert [items[0]] + items[1..] == items;
    }
  }

  lemma StrsRoundTrip(items: seq<string>, rest: string)
    requires forall i :: 0 <= i < |items| ==> Plain(items[i])
    ensures ParseStrs(Render(Strs(items)) + rest) == Some((items, rest))
  {
    var s := Render(Strs(items)) + rest;
    if |items| == 0 {
      assert s == "[]" + rest;
    } else {
      assert s[1..] == Join(QuoteAll(items)) + "]" + rest;
      ItemsRoundTrip(items, rest);
      assert Quote(items[0]) == QuoteAll(items)[0];
      assert Join(QuoteAll(items))[0] == '"' by {
        assert Join(QuoteAll(items)) == Quote(items[0]) + Join(QuoteAll(items))[|Quote(items[0])|..] by {
          JoinHead(QuoteAll(items));
        }
      }
    }
  }

  /** A non-empty join starts with its first part. */
  lemma JoinHead(parts: seq<string>)
    requires |parts| > 0
    ensures |Join(parts)| >= |parts[0]|
    ensures Join(parts) == parts[0] + Join(parts)[|parts[0]|..]
  {
  }

  lemma ValueRoundTrip(v: Value, rest: string)
    requires WellFormedValue(v) && Delimited(rest)
    ensures ParseValue(Render(v) + rest) == Some((v, rest))
  {
    match v
    case Str(x) =>
      QuoteRoundTrip(x, rest);
    case Strs(items) =>
      StrsRoundTrip(items, rest);
    case Bool(b) =>
      BoolRoundTrip(b, rest);
    case Int(n) =>
      IntRoundTrip(n, rest);
      NumberStart(n, 0);
      NumberValue(IntText(n) + rest, v, rest);
    case Fixed(h) =>
      FixedRoundTrip(h, rest);
      NumberStart(0, h);
      NumberValue(FixedText(h) + rest, v, rest);
  }

  lemma BoolRoundTrip(b: bool, rest: string)
    ensures ParseValue(BoolText(b) + rest) == Some((Bool(b), rest))
  {
    var s := BoolText(b) + rest;
    if b {
      assert s[..4] == "true" && s[4..] == rest;
    } else {
      assert s[..5] == "false" && s[5..] == rest;
      assert s[..4] != "true" by { assert s[0] == 'f'; }
    }
  }

  /** Text starting like a number is read as a number. */
  lemma NumberValue(s: string, v: Value, rest: string)
    requires |s| > 0 && (s[0] == '-' || IsDigit(s[0]))
    requires ParseNumber(s) == Some((v, rest))
    ensures ParseValue(s) == Some((v, rest))
  {
    assert |s| >= 4 ==> s[..4] != "true" by { assert |s| >= 4 ==> s[..4][0] == s[0]; }
    assert |s| >= 5 ==> s[..5] != "false" by { assert |s| >= 5 ==> s[..5][0] == s[0]; }
  }

  /** One member: its key is read back, then its value, up to what follows. */
  lemma MemberRoundTrip(f: Field, after: string)
    requires Plain(f.key) && WellFormedValue(f.value) && Delimited(after)
    ensures ParseQuoted(RenderField(f) + after) == Some((f.key, ":" + Render(f.value) + after))
    ensures ParseValue((":" + Render(f.value) + after)[1..]) == Some((f.value, after))
  {
    assert RenderField(f) + after == Quote(f.key) + (":" + Render(f.value) + after);
    QuoteRoundTrip(f.key, ":" + Render(f.value) + after);
    assert (":" + Render(f.value) + after)[1..] == Render(f.value) + after;
    ValueRoundTrip(f.value, after);
  }

  /** How ParseMembers reads one member and what follows it. */
  lemma ParseMembersStep(s: string, k: string, v: Value, w: string)
    requires ParseQuoted(s).Some? && ParseQuoted(s).value.0 == k
    requires var u := ParseQuoted(s).value.1; |u| > 0 && u[0] == ':' && ParseValue(u[1..]) == Some((v, w))
    requires |w| > 0 && (w[0] == ',' || w[0] == '}')
    ensures w[0] == '}' ==> ParseMembers(s) == Some(([Field(k, v)], w[1..]))
    ensures w[0] == ',' && ParseMembers(w[1..]).Some? ==>
      var (fs, x) := ParseMembers(w[1..]).value; ParseMembers(s) == Some(([Field(k, v)] + fs, x))
  {
  }

  lemma {:induction false} MembersRoundTrip(fs: seq<Field>, rest: string)
    requires |fs| > 0 && WellFormed(fs)
    ensures ParseMembers(Join(RenderFields(fs)) + "}" + rest) == Some((fs, rest))
    decreases |fs|
  {
    if |fs| == 1 {
      LastMember(fs, rest);
    } else {
      assert WellFormed(fs[1..]) by {
        forall i | 0 <= i < |fs[1..]| ensures Plain(fs[1..][i].key) && WellFormedValue(fs[1..][i].value) {
          assert fs[1..][i] == fs[i + 1];
        }
      }
      MembersRoundTrip(fs[1..], rest);
      NextMember(fs, rest);
    }
  }

  /** The last member is followed by the closing brace. */
  lemma LastMember(fs: seq<Field>, rest: string)
    requires |fs| == 1 && WellFormed(fs)
    ensures ParseMembers(Join(RenderFields(fs)) + "}" + rest) == Some((fs, rest))
  {
    var f := fs[0];
    var s := Join(RenderFields(fs)) + "}" + rest;
    var after := "}" + rest;
    assert Join(RenderFields(fs)) == RenderField(f);
    Regroup(RenderField(f), "}", rest);
    MemberRoundTrip(f, after);
    ParseMembersStep(s, f.key, f.value, after);
    assert after[1..] == rest;
    assert [f] == fs;
  }

  /** A member followed by a comma is followed by the members after it. */
  lemma NextMember(fs: seq<Field>, rest: string)
    requires |fs| > 1 && WellFormed(fs)
    requires ParseMembers(Join(RenderFields(fs[1..])) + "}" + rest) == Some((fs[1..], rest))
    ensures ParseMembers(Join(RenderFields(fs)) + "}" + rest) == Some((fs, rest))
  {
    var f := fs[0];
    var s := Join(RenderFields(fs)) + "}" + rest;
    var tail := Join(RenderFields(fs[1..])) + "}" + rest;
    var after := "," + tail;
    assert s == RenderField(f) + after by {
      var rs := RenderFields(fs);
      assert rs[1..] == RenderFields(fs[1..]);
      assert Join(rs) == RenderField(f) + "," + Join(RenderFields(fs[1..]));
      Regroup4(RenderField(f), ",", Join(RenderFields(fs[1..])), "}", rest);
      Regroup(",", Join(RenderFields(fs[1..])) + "}", rest);
      Regroup(",", Join(RenderFields(fs[1..])), "}");
    }
    assert after[1..] == tail;
    assert ParseMembers(s) == Some(([f] + fs[1..], rest)) by {
      assert Plain(f.key) && WellFormedValue(f.value);
      MemberRoundTrip(f, after);
      ParseMembersStep(s, f.key, f.value, after);
    }
    assert [f] + fs[1..] == fs;
  }

  /** Reading a serialised body back yields exactly its fields, in order. */
  lemma DecodeSerialize(fs: seq<Field>)
    requires WellFormed(fs)
    ensures Decode(Serialize(fs)) == Some(fs)
  {
    if |fs| == 0 {
      assert Serialize(fs) == "{}";
    } else {
      BodyRoundTrip(fs);
    }
  }

  lemma BodyRoundTrip(fs: seq<Field>)
    requires |fs| > 0 && WellFormed(fs)
    ensures Decode(Serialize(fs)) == Some(fs)
  {
    BodyShape(fs);
    MembersRoundTrip(fs, "");
  }

  /** A non-empty body: the brace, then members that start with a quote,
      then the closing brace. */
  lemma BodyShape(fs: seq<Field>)
    requires |fs| > 0
    ensures var s := Serialize(fs);
      |s| >= 2 && s[0] == '{' && s[1] == '"' && s[1..] == Join(RenderFields(fs)) + "}" + ""
  {
    var j := Join(RenderFields(fs));
    var body := j + "}";
    var s := Serialize(fs);
    Regroup("{", j, "}");
    assert s == "{" + body;
    assert s[1..] == body;
    assert body + "" == body;
    FirstMemberQuote(fs);
    assert s[1] == j[0];
  }

  /** A non-empty list of members starts with the quote of the first key. */
  lemma FirstMemberQuote(fs: seq<Field>)
    requires |fs| > 0
    ensures |Join(RenderFields(fs))| > 0 && Join(RenderFields(fs))[0] == '"'
  {
    var rs := RenderFields(fs);
    JoinHead(rs);
    Regroup(Quote(fs[0].key), ":", Render(fs[0].value));
    assert rs[0] == Quote(fs[0].key) + (":" + Render(fs[0].value));
    assert rs[0][0] == '"';
  }

}
