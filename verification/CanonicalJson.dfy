/** Canonical JSON text: sorted keys, no blanks, Postgres escapes; a parser
    recovers the value from it. */
module CanonicalJson {
  import opened Common

  type Digit = c: char | '0' <= c <= '9' witness '0'

  /** A number keeps its scale: the fraction is a digit string. */
  datatype Json =
    | Null
    | Bool(b: bool)
    | Num(negative: bool, whole: nat, fraction: seq<Digit>)
    | Str(s: string)
    | Arr(items: seq<Json>)
    | Obj(fields: map<string, Json>)

  // ---- Key order -----------------------------------------------------------------

  /** Lexicographic order by code point. */
  predicate Before(a: string, b: string) {
    if b == "" then false
    else if a == "" then true
    else a[0] < b[0] || (a[0] == b[0] && Before(a[1..], b[1..]))
  }

  lemma {:induction false} BeforeTotal(a: string, b: string)
    ensures a == b || Before(a, b) || Before(b, a)
    ensures !(Before(a, b) && Before(b, a)) && !Before(a, a)
  {
    if a != "" && b != "" {
      BeforeTotal(a[1..], b[1..]);
      assert a[0] == b[0] && a[1..] == b[1..] ==> a == b by {
        assert a == [a[0]] + a[1..] && b == [b[0]] + b[1..];
      }
    }
    if a != "" {
      BeforeTotal(a[1..], a[1..]);
    }
  }

  lemma {:induction false} BeforeTransitive(a: string, b: string, c: string)
    requires Before(a, b) && Before(b, c)
    ensures Before(a, c)
  {
    if a != "" && a[0] == b[0] && b[0] == c[0] {
      BeforeTransitive(a[1..], b[1..], c[1..]);
    }
  }

  predicate Least(keys: set<string>, k: string) {
    k in keys && forall o | o in keys :: o != k ==> Before(k, o)
  }

  lemma {:induction false} LeastExists(keys: set<string>)
    requires keys != {}
    ensures exists k :: Least(keys, k)
    decreases |keys|
  {
    var x :| x in keys;
    if keys == {x} {
      assert Least(keys, x);
    } else {
      LeastExists(keys - {x});
      var y :| Least(keys - {x}, y);
      BeforeTotal(x, y);
      var k := if Before(x, y) then x else y;
      forall o | o in keys && o != k ensures Before(k, o) {
        if Before(x, y) && o != y {
          BeforeTransitive(x, y, o);
        }
      }
      assert Least(keys, k);
    }
  }

  lemma LeastIsUnique(keys: set<string>)
    ensures forall a, b :: Least(keys, a) && Least(keys, b) ==> a == b
  {
    forall a, b | Least(keys, a) && Least(keys, b) ensures a == b {
      BeforeTotal(a, b);
    }
  }

  /** ORDER BY key */
  function SortedKeys(keys: set<string>): (s: seq<string>)
    ensures SeqSet(s) == keys && Distinct(s)
    ensures forall i, j :: 0 <= i < j < |s| ==> Before(s[i], s[j])
  {
    if keys == {} then []
    else
      LeastExists(keys);
      LeastIsUnique(keys);
      var k :| Least(keys, k);
      var rest := SortedKeys(keys - {k});
      assert SeqSet([k] + rest) == {k} + SeqSet(rest);
      [k] + rest
  }

  // ---- Printing --------------------------------------------------------------------

  function HexDigit(n: nat): char
    requires n < 16
  {
    if n < 10 then '0' + n as char else 'a' + (n - 10) as char
  }

  function Escape(c: char): string {
    if c == '"' then "\\\""
    else if c == '\\' then "\\\\"
    else if c == 8 as char then "\\b"
    else if c == 12 as char then "\\f"
    else if c == '\n' then "\\n"
    else if c == '\r' then "\\r"
    else if c == '\t' then "\\t"
    else if c < ' ' then "\\u00" + [HexDigit(c as int / 16), HexDigit(c as int % 16)]
    else [c]
  }

  function EscapeAll(s: string): string {
    if s == "" then "" else Escape(s[0]) + EscapeAll(s[1..])
  }

  function Quote(s: string): string {
    "\"" + EscapeAll(s) + "\""
  }

  function Decimal(n: nat): (s: seq<Digit>)
    ensures s != []
  {
    if n < 10 then ['0' + n as char] else Decimal(n / 10) + ['0' + (n % 10) as char]
  }

  function PrintNumber(negative: bool, whole: nat, fraction: seq<Digit>): string {
    (if negative then "-" else "") + Decimal(whole) + (if fraction == [] then "" else "." + fraction)
  }

  /** v1006_canonical_json */
  function Print(j: Json): string
    decreases j, 1, 0
  {
    match j
    case Null => "null"
    case Bool(b) => if b then "true" else "false"
    case Num(negative, whole, fraction) => PrintNumber(negative, whole, fraction)
    case Str(s) => Quote(s)
    case Arr(items) => "[" + PrintItems(j, 0) + "]"
    case Obj(fields) => "{" + PrintFields(j, SortedKeys(fields.Keys)) + "}"
  }

  /** The items from i on. */
  function PrintItems(j: Json, i: nat): string
    requires j.Arr? && i <= |j.items|
    decreases j, 0, |j.items| - i
  {
    if i == |j.items| then ""
    else Print(j.items[i]) + (if i + 1 == |j.items| then "" else "," + PrintItems(j, i + 1))
  }

  function PrintFields(j: Json, keys: seq<string>): string
    requires j.Obj? && forall k <- keys :: k in j.fields
    decreases j, 0, |keys|
  {
    if keys == [] then ""
    else Quote(keys[0]) + ":" + Print(j.fields[keys[0]]) + (if |keys| == 1 then "" else "," + PrintFields(j, keys[1..]))
  }

  // ---- Parsing ------------------------------------------------------------------------

  function HexValue(c: char): Option<nat> {
    if '0' <= c <= '9' then Some((c - '0') as nat)
    else if 'a' <= c <= 'f' then Some((c - 'a') as nat + 10)
    else None
  }

  /** One character of a string literal and what follows it. */
  function ReadChar(t: string): (r: Option<(char, string)>)
    ensures r.Some? ==> |r.value.1| < |t|
  {
    if t == "" || t[0] == '"' || t[0] < ' ' then None
    else if t[0] != '\\' then Some((t[0], t[1..]))
    else if |t| < 2 then None
    else if t[1] == '"' || t[1] == '\\' then Some((t[1], t[2..]))
    else if t[1] == 'b' then Some((8 as char, t[2..]))
    else if t[1] == 'f' then Some((12 as char, t[2..]))
    else if t[1] == 'n' then Some(('\n', t[2..]))
    else if t[1] == 'r' then Some(('\r', t[2..]))
    else if t[1] == 't' then Some(('\t', t[2..]))
    else if |t| >= 6 && t[1] == 'u' && t[2] == '0' && t[3] == '0' && HexValue(t[4]).Some? && HexValue(t[5]).Some? then
      Some(((HexValue(t[4]).value * 16 + HexValue(t[5]).value) as char, t[6..]))
    else None
  }

  /** Characters up to the closing quote. */
  function ReadChars(t: string): (r: Option<(string, string)>)
    ensures r.Some? ==> |r.value.1| < |t|
    decreases |t|
  {
    if t == "" then None
    else if t[0] == '"' then Some(("", t[1..]))
    else
      var c := ReadChar(t);
      if c.None? then None
      else
        var rest := ReadChars(c.value.1);
        if rest.None? then None else Some(([c.value.0] + rest.value.0, rest.value.1))
  }

  function ReadString(t: string): (r: Option<(string, string)>)
    ensures r.Some? ==> |r.value.1| < |t|
  {
    if t == "" || t[0] != '"' then None else ReadChars(t[1..])
  }

  predicate IsDigit(c: char) {
    '0' <= c <= '9'
  }

  function TakeDigits(t: string): (ds: seq<Digit>)
    ensures |ds| <= |t| && t[..|ds|] == ds
  {
    if t == "" || !IsDigit(t[0]) then [] else [t[0]] + TakeDigits(t[1..])
  }

  function Value(ds: seq<Digit>): nat {
    if ds == [] then 0 else 10 * Value(ds[..|ds| - 1]) + (ds[|ds| - 1] - '0') as nat
  }

  function ParseUnsigned(negative: bool, t: string): (r: Option<(Json, string)>)
    ensures r.Some? ==> |r.value.1| < |t|
  {
    var whole := TakeDigits(t);
    var rest := t[|whole|..];
    if whole == [] then None
    else if rest == "" || rest[0] != '.' then Some((Num(negative, Value(whole), []), rest))
    else
      var fraction := TakeDigits(rest[1..]);
      if fraction == [] then None else Some((Num(negative, Value(whole), fraction), rest[1..][|fraction|..]))
  }

  function ParseNumber(t: string): (r: Option<(Json, string)>)
    requires t != ""
    ensures r.Some? ==> |r.value.1| < |t|
  {
    if t[0] == '-' then ParseUnsigned(true, t[1..]) else ParseUnsigned(false, t)
  }

  function Literal(t: string, word: string, j: Json): (r: Option<(Json, string)>)
    requires word != ""
    ensures r.Some? ==> |r.value.1| < |t|
  {
    if word <= t then Some((j, t[|word|..])) else None
  }

  /** One value at the start of t and what follows it. */
  function Parse(t: string): (r: Option<(Json, string)>)
    ensures r.Some? ==> |r.value.1| < |t|
    decreases |t|, 1
  {
    if t == "" then None
    else if t[0] == 'n' then Literal(t, "null", Null)
    else if t[0] == 't' then Literal(t, "true", Bool(true))
    else if t[0] == 'f' then Literal(t, "false", Bool(false))
    else if t[0] == '"' then
      var s := ReadString(t);
      if s.None? then None else Some((Str(s.value.0), s.value.1))
    else if t[0] == '[' then
      if |t| >= 2 && t[1] == ']' then Some((Arr([]), t[2..]))
      else
        var items := ParseItems(t[1..]);
        if items.None? then None else Some((Arr(items.value.0), items.value.1))
    else if t[0] == '{' then
      if |t| >= 2 && t[1] == '}' then Some((Obj(map[]), t[2..]))
      else
        var fields := ParseFields(t[1..]);
        if fields.None? then None else Some((Obj(fields.value.0), fields.value.1))
    else ParseNumber(t)
  }

  function ParseItems(t: string): (r: Option<(seq<Json>, string)>)
    ensures r.Some? ==> |r.value.1| < |t|
    decreases |t|, 2
  {
    var first := Parse(t);
    if first.None? || first.value.1 == "" then None
    else if first.value.1[0] == ']' then Some(([first.value.0], first.value.1[1..]))
    else if first.value.1[0] != ',' then None
    else
      var rest := ParseItems(first.value.1[1..]);
      if rest.None? then None else Some(([first.value.0] + rest.value.0, rest.value.1))
  }

  function ParseFields(t: string): (r: Option<(map<string, Json>, string)>)
    ensures r.Some? ==> |r.value.1| < |t|
    decreases |t|, 2
  {
    var key := ReadString(t);
    if key.None? || key.value.1 == "" || key.value.1[0] != ':' then None
    else
      var value := Parse(key.value.1[1..]);
      if value.None? || value.value.1 == "" then None
      else if value.value.1[0] == '}' then Some((map[key.value.0 := value.value.0], value.value.1[1..]))
      else if value.value.1[0] != ',' then None
      else
        var rest := ParseFields(value.value.1[1..]);
        if rest.None? then None else Some((rest.value.0[key.value.0 := value.value.0], rest.value.1))
  }

  // ---- Strings and numbers come back ------------------------------------------------------

  lemma Regroup(a: string, b: string, c: string)
    ensures (a + b) + c == a + (b + c)
  {
  }

  lemma {:induction false} ReadsEscape(c: char, rest: string)
    ensures ReadChar(Escape(c) + rest) == Some((c, rest))
    ensures Escape(c) != "" && Escape(c)[0] != '"'
  {
    var t := Escape(c) + rest;
    assert t[|Escape(c)|..] == rest;
    if c < ' ' {
      assert HexValue(HexDigit(c as int / 16)) == Some(c as int / 16);
      assert HexValue(HexDigit(c as int % 16)) == Some(c as int % 16);
      assert c as int / 16 * 16 + c as int % 16 == c as int;
    }
  }

  lemma {:induction false} ReadsChars(s: string, rest: string)
    ensures ReadChars(EscapeAll(s) + "\"" + rest) == Some((s, rest))
  {
    if s == "" {
      assert (EscapeAll(s) + "\"" + rest)[1..] == rest;
    } else {
      var tail := EscapeAll(s[1..]) + "\"" + rest;
      Regroup(Escape(s[0]), EscapeAll(s[1..]), "\"");
      Regroup(Escape(s[0]), EscapeAll(s[1..]) + "\"", rest);
      ReadsEscape(s[0], tail);
      ReadsChars(s[1..], rest);
      assert [s[0]] + s[1..] == s;
    }
  }

  lemma {:induction false} ReadsQuote(s: string, rest: string)
    ensures ReadString(Quote(s) + rest) == Some((s, rest))
  {
    assert (Quote(s) + rest)[1..] == EscapeAll(s) + "\"" + rest;
    ReadsChars(s, rest);
  }

  lemma {:induction false} ValueOfDecimal(n: nat)
    ensures Value(Decimal(n)) == n
  {
    if n >= 10 {
      ValueOfDecimal(n / 10);
      assert Decimal(n)[..|Decimal(n)| - 1] == Decimal(n / 10);
    } else {
      assert Decimal(n)[..0] == [];
    }
  }

  lemma {:induction false} TakesDigits(ds: seq<Digit>, rest: string)
    requires rest == "" || !IsDigit(rest[0])
    ensures TakeDigits(ds + rest) == ds
  {
    if ds == [] {
      assert ds + rest == rest;
    } else {
      assert (ds + rest)[1..] == ds[1..] + rest;
      TakesDigits(ds[1..], rest);
    }
  }

  /** What may follow a number without being read as part of it. */
  predicate Ends(rest: string) {
    rest == "" || (!IsDigit(rest[0]) && rest[0] != '.')
  }

  lemma {:induction false} SkipsDigits(ds: seq<Digit>, rest: string)
    requires rest == "" || !IsDigit(rest[0])
    ensures TakeDigits(ds + rest) == ds && (ds + rest)[|ds|..] == rest
  {
    TakesDigits(ds, rest);
  }

  lemma {:induction false} ParsesWhole(negative: bool, whole: nat, rest: string)
    requires Ends(rest)
    ensures ParseUnsigned(negative, Decimal(whole) + rest) == Some((Num(negative, whole, []), rest))
  {
    ValueOfDecimal(whole);
    SkipsDigits(Decimal(whole), rest);
  }

  lemma {:induction false} ParsesFraction(negative: bool, whole: nat, fraction: seq<Digit>, rest: string)
    requires Ends(rest) && fraction != []
    ensures ParseUnsigned(negative, Decimal(whole) + ("." + (fraction + rest))) ==
              Some((Num(negative, whole, fraction), rest))
  {
    var tail := "." + (fraction + rest);
    ValueOfDecimal(whole);
    SkipsDigits(Decimal(whole), tail);
    assert tail[1..] == fraction + rest;
    SkipsDigits(fraction, rest);
  }

  lemma {:induction false} UnsignedText(whole: nat, fraction: seq<Digit>, rest: string)
    ensures fraction == [] ==> PrintNumber(false, whole, fraction) == Decimal(whole)
    ensures fraction != [] ==> PrintNumber(false, whole, fraction) + rest == Decimal(whole) + ("." + (fraction + rest))
  {
    var ds: string := Decimal(whole);
    assert "" + ds == ds && ds + "" == ds;
    Regroup(ds, "." + fraction, rest);
    Regroup(".", fraction, rest);
  }

  lemma {:induction false} ParsesUnsigned(negative: bool, whole: nat, fraction: seq<Digit>, rest: string)
    requires Ends(rest)
    ensures ParseUnsigned(negative, PrintNumber(false, whole, fraction) + rest) ==
              Some((Num(negative, whole, fraction), rest))
  {
    UnsignedText(whole, fraction, rest);
    if fraction == [] {
      ParsesWhole(negative, whole, rest);
    } else {
      ParsesFraction(negative, whole, fraction, rest);
    }
  }

  lemma {:induction false} NumbersAreNumbers(t: string)
    requires t != "" && (IsDigit(t[0]) || t[0] == '-')
    ensures Parse(t) == ParseNumber(t)
  {
  }

  lemma {:induction false} SignedNumber(t: string)
    requires t != "" && IsDigit(t[0])
    ensures ParseNumber(t) == ParseUnsigned(false, t) && ParseNumber("-" + t) == ParseUnsigned(true, t)
  {
    assert ("-" + t)[1..] == t;
  }

  lemma {:induction false} PrintedSign(negative: bool, whole: nat, fraction: seq<Digit>, rest: string)
    ensures var t := PrintNumber(false, whole, fraction) + rest;
            t != "" && IsDigit(t[0]) && PrintNumber(negative, whole, fraction) + rest == if negative then "-" + t else t
  {
    var t := PrintNumber(false, whole, fraction) + rest;
    assert t[0] == Decimal(whole)[0];
    assert PrintNumber(true, whole, fraction) == "-" + PrintNumber(false, whole, fraction);
  }

  lemma {:induction false} ParsesNumber(negative: bool, whole: nat, fraction: seq<Digit>, rest: string)
    requires Ends(rest)
    ensures Parse(PrintNumber(negative, whole, fraction) + rest) == Some((Num(negative, whole, fraction), rest))
  {
    var t := PrintNumber(false, whole, fraction) + rest;
    ParsesUnsigned(negative, whole, fraction, rest);
    PrintedSign(negative, whole, fraction, rest);
    SignedNumber(t);
    NumbersAreNumbers(PrintNumber(negative, whole, fraction) + rest);
  }

  // ---- How the parser takes lists apart ------------------------------------------------------

  lemma {:induction false} ParsesWords(rest: string)
    ensures Parse("null" + rest) == Some((Null, rest))
    ensures Parse("true" + rest) == Some((Bool(true), rest))
    ensures Parse("false" + rest) == Some((Bool(false), rest))
  {
    assert ("null" + rest)[4..] == rest && ("true" + rest)[4..] == rest && ("false" + rest)[5..] == rest;
  }

  lemma {:induction false} ParsesString(t: string, s: string, rest: string)
    requires t != "" && t[0] == '"' && ReadString(t) == Some((s, rest))
    ensures Parse(t) == Some((Str(s), rest))
  {
  }

  lemma {:induction false} ParsesArray(body: string, items: seq<Json>, rest: string)
    requires body != "" && body[0] != ']' && ParseItems(body) == Some((items, rest))
    ensures Parse("[" + body) == Some((Arr(items), rest))
  {
    assert ("[" + body)[1..] == body;
  }

  lemma {:induction false} ParsesObject(body: string, fields: map<string, Json>, rest: string)
    requires body != "" && body[0] != '}' && ParseFields(body) == Some((fields, rest))
    ensures Parse("{" + body) == Some((Obj(fields), rest))
  {
    assert ("{" + body)[1..] == body;
  }

  lemma {:induction false} ParsesEmpty(rest: string)
    ensures Parse("[]" + rest) == Some((Arr([]), rest)) && Parse("{}" + rest) == Some((Obj(map[]), rest))
  {
    assert ("[]" + rest)[2..] == rest && ("{}" + rest)[2..] == rest;
  }

  lemma {:induction false} ParsesLastItem(t: string, v: Json, rest: string)
    requires Parse(t) == Some((v, "]" + rest))
    ensures ParseItems(t) == Some(([v], rest))
  {
    assert ("]" + rest)[1..] == rest;
  }

  lemma {:induction false} ParsesItem(t: string, v: Json, more: string, vs: seq<Json>, rest: string)
    requires Parse(t) == Some((v, "," + more)) && ParseItems(more) == Some((vs, rest))
    ensures ParseItems(t) == Some(([v] + vs, rest))
  {
    assert ("," + more)[1..] == more;
  }

  lemma {:induction false} ParsesLastField(t: string, k: string, u: string, v: Json, rest: string)
    requires ReadString(t) == Some((k, ":" + u)) && Parse(u) == Some((v, "}" + rest))
    ensures ParseFields(t) == Some((map[k := v], rest))
  {
    assert (":" + u)[1..] == u && ("}" + rest)[1..] == rest;
  }

  lemma {:induction false} ParsesField(
      t: string, k: string, u: string, v: Json, more: string, m: map<string, Json>, rest: string)
    requires ReadString(t) == Some((k, ":" + u)) && Parse(u) == Some((v, "," + more))
    requires ParseFields(more) == Some((m, rest))
    ensures ParseFields(t) == Some((m[k := v], rest))
  {
    assert (":" + u)[1..] == u && ("," + more)[1..] == more;
  }

  // ---- Values come back ----------------------------------------------------------------------

  /** The first character tells what kind of value follows; it is never a
      closing bracket. */
  lemma PrintStarts(j: Json)
    ensures Print(j) != "" && Print(j)[0] != ']' && Print(j)[0] != '}'
  {
    if j.Num? {
      assert Decimal(j.whole) != [];
    }
  }

  lemma ItemsStart(j: Json)
    requires j.Arr? && j.items != []
    ensures PrintItems(j, 0) != "" && PrintItems(j, 0)[0] != ']'
  {
    PrintStarts(j.items[0]);
  }

  lemma {:induction false} ItemsText(j: Json, i: nat, rest: string)
    requires j.Arr? && i < |j.items|
    ensures i + 1 == |j.items| ==> PrintItems(j, i) + "]" + rest == Print(j.items[i]) + ("]" + rest)
    ensures i + 1 < |j.items| ==>
              PrintItems(j, i) + "]" + rest == Print(j.items[i]) + ("," + (PrintItems(j, i + 1) + "]" + rest))
  {
  }

  lemma {:induction false} FieldsText(j: Json, keys: seq<string>, rest: string)
    requires j.Obj? && keys != [] && forall k <- keys :: k in j.fields
    ensures |keys| == 1 ==>
              PrintFields(j, keys) + "}" + rest == Quote(keys[0]) + (":" + (Print(j.fields[keys[0]]) + ("}" + rest)))
    ensures |keys| > 1 ==>
              PrintFields(j, keys) + "}" + rest ==
                Quote(keys[0]) + (":" + (Print(j.fields[keys[0]]) + ("," + (PrintFields(j, keys[1..]) + "}" + rest))))
  {
    var q, v := Quote(keys[0]), Print(j.fields[keys[0]]);
    var more := if |keys| == 1 then "" else "," + PrintFields(j, keys[1..]);
    var end := more + "}" + rest;
    Regroup(q + ":" + v, more, "}" + rest);
    Regroup(q + ":", v, end);
    Regroup(q, ":", v + end);
    Regroup(q + ":" + v + more, "}", rest);
    Regroup(more, "}", rest);
    if |keys| > 1 {
      Regroup(",", PrintFields(j, keys[1..]), "}" + rest);
      Regroup(PrintFields(j, keys[1..]), "}", rest);
    }
  }

  lemma {:induction false} SortedFields(fields: map<string, Json>)
    ensures var keys := SortedKeys(fields.Keys);
            && (keys == [] <==> fields == map[]) && (forall k :: k in keys <==> k in fields)
            && (map k | k in keys :: fields[k]) == fields
  {
    var keys := SortedKeys(fields.Keys);
    assert forall k :: k in keys <==> k in SeqSet(keys);
    if keys == [] {
      assert fields.Keys == {};
    } else {
      assert keys[0] in fields;
    }
  }

  lemma {:induction false} ObjectText(j: Json, rest: string)
    requires j.Obj?
    ensures var keys := SortedKeys(j.fields.Keys);
            if j.fields == map[] then Print(j) + rest == "{}" + rest && keys == []
            else keys != [] && Print(j) + rest == "{" + (PrintFields(j, keys) + "}" + rest) &&
                 (map k | k in keys :: j.fields[k]) == j.fields
  {
    var keys := SortedKeys(j.fields.Keys);
    SortedFields(j.fields);
    Regroup("{", PrintFields(j, keys), "}");
    Regroup("{", PrintFields(j, keys) + "}", rest);
  }

  lemma {:induction false} ArrayText(j: Json, rest: string)
    requires j.Arr?
    ensures if j.items == []
              then Print(j) + rest == "[]" + rest else Print(j) + rest == "[" + (PrintItems(j, 0) + "]" + rest)
  {
  }

  lemma {:induction false} FieldsStart(j: Json, keys: seq<string>)
    requires j.Obj? && keys != [] && forall k <- keys :: k in j.fields
    ensures PrintFields(j, keys) != "" && PrintFields(j, keys)[0] == '"'
  {
  }

  /** A parser recovers the value from its canonical text and leaves the rest. */
  lemma {:induction false} ParsePrint(j: Json, rest: string)
    requires Ends(rest)
    ensures Parse(Print(j) + rest) == Some((j, rest))
    decreases j, 1, 0
  {
    match j {
      case Null => ParsesWords(rest);
      case Bool(b) => ParsesWords(rest);
      case Num(negative, whole, fraction) => ParsesNumber(negative, whole, fraction, rest);
      case Str(s) => ParsePrintString(s, rest);
      case Arr(items) => ParsePrintArray(j, rest);
      case Obj(fields) => ParsePrintObject(j, rest);
    }
  }

  lemma {:induction false} ParsePrintString(s: string, rest: string)
    ensures Parse(Quote(s) + rest) == Some((Str(s), rest))
  {
    ReadsQuote(s, rest);
    ParsesString(Quote(s) + rest, s, rest);
  }

  lemma {:induction false} ParsePrintArray(j: Json, rest: string)
    requires j.Arr?
    ensures Parse(Print(j) + rest) == Some((j, rest))
    decreases j, 0, |j.items| + 1
  {
    ArrayText(j, rest);
    if j.items == [] {
      ParsesEmpty(rest);
    } else {
      ItemsStart(j);
      ParsePrintItems(j, 0, rest);
      assert j.items[0..] == j.items;
      ParsesArray(PrintItems(j, 0) + "]" + rest, j.items, rest);
    }
  }

  lemma {:induction false} ParsePrintObject(j: Json, rest: string)
    requires j.Obj?
    ensures Parse(Print(j) + rest) == Some((j, rest))
    decreases j, 0, |SortedKeys(j.fields.Keys)| + 1
  {
    var keys := SortedKeys(j.fields.Keys);
    ObjectText(j, rest);
    if j.fields == map[] {
      ParsesEmpty(rest);
    } else {
      FieldsStart(j, keys);
      ParsePrintFields(j, keys, rest);
      ParsesObject(PrintFields(j, keys) + "}" + rest, j.fields, rest);
    }
  }

  lemma ItemsTail(items: seq<Json>, i: nat)
    requires i < |items|
    ensures items[i..] == [items[i]] + items[i + 1..]
    ensures i + 1 == |items| ==> items[i..] == [items[i]]
  {
  }

  lemma {:induction false} ParsePrintItems(j: Json, i: nat, rest: string)
    requires j.Arr? && i < |j.items|
    ensures ParseItems(PrintItems(j, i) + "]" + rest) == Some((j.items[i..], rest))
    decreases j, 0, |j.items| - i
  {
    var t := PrintItems(j, i) + "]" + rest;
    ItemsText(j, i, rest);
    ItemsTail(j.items, i);
    if i + 1 == |j.items| {
      ParsePrint(j.items[i], "]" + rest);
      ParsesLastItem(t, j.items[i], rest);
    } else {
      var more := PrintItems(j, i + 1) + "]" + rest;
      ParsePrint(j.items[i], "," + more);
      ParsePrintItems(j, i + 1, rest);
      ParsesItem(t, j.items[i], more, j.items[i + 1..], rest);
    }
  }

  lemma FirstField(fields: map<string, Json>, keys: seq<string>)
    requires keys != [] && forall k <- keys :: k in fields
    ensures (map x | x in keys :: fields[x]) == (map x | x in keys[1..] :: fields[x])[keys[0] := fields[keys[0]]]
    ensures |keys| == 1 ==> (map x | x in keys :: fields[x]) == map[keys[0] := fields[keys[0]]]
  {
    assert keys == [keys[0]] + keys[1..];
  }

  lemma {:induction false} ParsePrintFields(j: Json, keys: seq<string>, rest: string)
    requires j.Obj? && keys != [] && forall k <- keys :: k in j.fields
    ensures ParseFields(PrintFields(j, keys) + "}" + rest) == Some((map k | k in keys :: j.fields[k], rest))
    decreases j, 0, |keys|
  {
    var k, v := keys[0], j.fields[keys[0]];
    var t := PrintFields(j, keys) + "}" + rest;
    FieldsText(j, keys, rest);
    FirstField(j.fields, keys);
    if |keys| == 1 {
      var u := Print(v) + ("}" + rest);
      ParsePrint(v, "}" + rest);
      ReadsQuote(k, ":" + u);
      ParsesLastField(t, k, u, v, rest);
    } else {
      var more := PrintFields(j, keys[1..]) + "}" + rest;
      var u := Print(v) + ("," + more);
      ParsePrint(v, "," + more);
      ReadsQuote(k, ":" + u);
      ParsePrintFields(j, keys[1..], rest);
      ParsesField(t, k, u, v, more, map x | x in keys[1..] :: j.fields[x], rest);
    }
  }

  /** Equal canonical texts, and so equal digests of them, mean equal values. */
  lemma CanonicalIsInjective(a: Json, b: Json)
    ensures Print(a) == Print(b) ==> a == b
  {
    ParsePrint(a, "");
    ParsePrint(b, "");
    assert Print(a) + "" == Print(a) && Print(b) + "" == Print(b);
  }

  /** No canonical text is the beginning of another one, so texts can be joined
      and taken apart again; only numbers need a separator. */
  lemma CanonicalIsPrefixFree(a: Json, b: Json, x: string, y: string)
    requires Ends(x) && Ends(y) && Print(a) + x == Print(b) + y
    ensures a == b && x == y
  {
    ParsePrint(a, x);
    ParsePrint(b, y);
  }

  // ---- Numbers keep their scale ------------------------------------------------------------------

  /** The fraction without its trailing zeros. */
  function Stripped(fraction: seq<Digit>): (r: seq<Digit>) {
    if fraction != [] && fraction[|fraction| - 1] == '0' then Stripped(fraction[..|fraction| - 1]) else fraction
  }

  /** Equality of JSONB values: numbers are compared by value, whatever their scale.
      (A numeric has no negative zero, so the sign is compared as it is.) */
  ghost predicate JsonbEqual(a: Json, b: Json)
    decreases a
  {
    match (a, b)
    case (Num(s, m, f), Num(t, n, g)) => s == t && m == n && Stripped(f) == Stripped(g)
    case (Arr(xs), Arr(ys)) => |xs| == |ys| && forall i :: 0 <= i < |xs| ==> JsonbEqual(xs[i], ys[i])
    case (Obj(f), Obj(g)) => f.Keys == g.Keys && forall k :: k in f ==> JsonbEqual(f[k], g[k])
    case _ => a == b
  }

  /** Numbers in the same place have equally long fractions. */
  ghost predicate SameScales(a: Json, b: Json)
    decreases a
  {
    match (a, b)
    case (Num(_, _, f), Num(_, _, g)) => |f| == |g|
    case (Arr(xs), Arr(ys)) => forall i :: 0 <= i < |xs| && i < |ys| ==> SameScales(xs[i], ys[i])
    case (Obj(f), Obj(g)) => forall k :: k in f && k in g ==> SameScales(f[k], g[k])
    case _ => true
  }

  lemma {:induction false} StrippedTells(f: seq<Digit>, g: seq<Digit>)
    requires |f| == |g| && Stripped(f) == Stripped(g)
    ensures f == g
  {
    StrippedIsPrefix(f);
    StrippedIsPrefix(g);
    forall i | 0 <= i < |f| ensures f[i] == g[i] {
      if i < |Stripped(f)| {
        assert f[i] == Stripped(f)[i] && g[i] == Stripped(g)[i];
      }
    }
  }

  lemma {:induction false} StrippedIsPrefix(f: seq<Digit>)
    ensures Stripped(f) <= f && forall i :: |Stripped(f)| <= i < |f| ==> f[i] == '0'
  {
    if f != [] && f[|f| - 1] == '0' {
      StrippedIsPrefix(f[..|f| - 1]);
      assert forall i :: 0 <= i < |f| - 1 ==> f[i] == f[..|f| - 1][i];
    }
  }

  lemma {:induction false} ScalesSettle(a: Json, b: Json)
    requires JsonbEqual(a, b) && SameScales(a, b)
    ensures a == b
    decreases a
  {
    match (a, b)
    case (Num(_, _, f), Num(_, _, g)) => StrippedTells(f, g);
    case (Arr(xs), Arr(ys)) =>
      forall i | 0 <= i < |xs| ensures xs[i] == ys[i] {
        ScalesSettle(xs[i], ys[i]);
      }
    case (Obj(f), Obj(g)) =>
      forall k | k in f ensures f[k] == g[k] {
        ScalesSettle(f[k], g[k]);
      }
    case _ =>
  }

  lemma {:induction false} ScalesReflexive(a: Json)
    ensures SameScales(a, a)
    decreases a
  {
    match a
    case Arr(xs) =>
      forall i | 0 <= i < |xs| ensures SameScales(xs[i], xs[i]) {
        ScalesReflexive(xs[i]);
      }
    case Obj(f) =>
      forall k | k in f ensures SameScales(f[k], f[k]) {
        ScalesReflexive(f[k]);
      }
    case _ =>
  }

  /** Two values that are equal as JSONB have the same canonical text exactly when
      every number in them has the same scale. */
  lemma {:induction false} EqualValuesPrintAlikeIff(a: Json, b: Json)
    requires JsonbEqual(a, b)
    ensures Print(a) == Print(b) <==> SameScales(a, b)
  {
    CanonicalIsInjective(a, b);
    ScalesReflexive(a);
    if SameScales(a, b) {
      ScalesSettle(a, b);
    }
  }

  function Padded(fraction: seq<Digit>, zeros: nat): (r: seq<Digit>) {
    fraction + seq(zeros, _ => '0')
  }

  lemma {:induction false} PaddedStrips(fraction: seq<Digit>, zeros: nat)
    ensures Stripped(Padded(fraction, zeros)) == Stripped(fraction)
  {
    var p := Padded(fraction, zeros);
    if zeros == 0 {
      assert p == fraction;
    } else {
      assert p[..|p| - 1] == Padded(fraction, zeros - 1);
      PaddedStrips(fraction, zeros - 1);
    }
  }

  /** For a single number: the text of 1.5 is not the text of 1.50, although the
      two are equal. */
  lemma ScaleShowsInText(negative: bool, whole: nat, fraction: seq<Digit>, zeros: nat)
    ensures JsonbEqual(Num(negative, whole, fraction), Num(negative, whole, Padded(fraction, zeros)))
    ensures Print(Num(negative, whole, fraction)) == Print(Num(negative, whole, Padded(fraction, zeros))) <==>
              zeros == 0
  {
    PaddedStrips(fraction, zeros);
    EqualValuesPrintAlikeIff(Num(negative, whole, fraction), Num(negative, whole, Padded(fraction, zeros)));
  }
}
