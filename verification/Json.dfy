/** JSON values and the canonical text the repository signs, hashes and stores:
    `json.dumps(v, sort_keys=True, separators=(",", ":"), ensure_ascii=False, allow_nan=False)`.
    `Parse` is the reading side; the round trip is what lets a stored receipt be read back,
    and makes the signed bytes determine the signed value. */
module Json {
  import opened Wrappers
  import opened Strings

  /** The `repr` of a finite float, kept as its text. */
  predicate IsFloatText(t: string) {
    && t != []
    && (IsDigit(t[0]) || t[0] == '-')
    && (forall i :: 0 <= i < |t| ==> IsNumberChar(t[i]))
    && exists i :: 0 <= i < |t| && t[i] in {'.', 'e', 'E'}
  }
  type FloatText = t: string | IsFloatText(t) witness FloatSample()

  function FloatSample(): (t: string) ensures IsFloatText(t) {
    var t := "0.5";
    assert t[1] == '.';
    t
  }

  datatype Json =
    | Null
    | Bool(b: bool)
    | Int(n: int)
    | Float(text: FloatText)
    | Str(s: string)
    | Arr(items: seq<Json>)
    | Obj(fields: map<string, Json>)

  predicate IsDigit(c: char) { '0' <= c <= '9' }
  predicate IsNumberChar(c: char) { IsDigit(c) || c in {'+', '-', '.', 'e', 'E'} }

  // ---------- Writing ----------

  function Digit(n: nat): (c: char) requires n < 10 ensures IsDigit(c) { ('0' as int + n) as char }

  function Decimal(n: nat): (r: string)
    ensures r != [] && forall i :: 0 <= i < |r| ==> IsDigit(r[i])
  {
    if n < 10 then [Digit(n)] else Decimal(n / 10) + [Digit(n % 10)]
  }

  function IntText(n: int): (r: string)
    ensures r != [] && (IsDigit(r[0]) || r[0] == '-')
    ensures forall i :: 0 <= i < |r| ==> IsDigit(r[i]) || r[i] == '-'
  {
    if n < 0 then "-" + Decimal(-n) else Decimal(n)
  }

  function HexDigit(n: nat): char requires n < 16 {
    if n < 10 then ('0' as int + n) as char else ('a' as int + (n - 10)) as char
  }

  /** The escapes of `json.dumps` with `ensure_ascii=False`. */
  function EscapeChar(c: char): (r: string)
    ensures r != []
  {
    if c == '"' then ['\\', '"']
    else if c == '\\' then ['\\', '\\']
    else if c == '\n' then ['\\', 'n']
    else if c == '\r' then ['\\', 'r']
    else if c == '\t' then ['\\', 't']
    else if c as int == 12 then ['\\', 'f']
    else if c as int == 8 then ['\\', 'b']
    else if c as int < 32 then ['\\', 'u', '0', '0', HexDigit(c as int / 16), HexDigit(c as int % 16)]
    else [c]
  }

  function Escape(s: string): string {
    if s == [] then [] else EscapeChar(s[0]) + Escape(s[1..])
  }

  function Quote(s: string): string { ['"'] + Escape(s) + ['"'] }

  function SortedKeys(fields: map<string, Json>): (r: seq<string>)
    ensures forall k :: k in r <==> k in fields
    ensures fields != map[] ==> r != []
  {
    assert fields != map[] ==> fields.Keys != {};
    Sorted(fields.Keys)
  }

  function Encode(j: Json): (r: string)
    decreases j, 1, 0
  {
    match j
    case Null => "null"
    case Bool(b) => if b then "true" else "false"
    case Int(n) => IntText(n)
    case Float(t) => t
    case Str(s) => Quote(s)
    case Arr(items) => if items == [] then "[]" else "[" + EncodeItems(j, 0) + "]"
    case Obj(fields) =>
      if fields == map[] then "{}" else "{" + EncodeMembers(j, SortedKeys(fields)) + "}"
  }

  /** The elements of an array from position `i`, separated by commas. */
  function EncodeItems(j: Json, i: nat): string
    requires j.Arr? && i < |j.items|
    decreases j, 0, |j.items| - i
  {
    Encode(j.items[i]) + (if i + 1 == |j.items| then [] else "," + EncodeItems(j, i + 1))
  }

  /** The members of an object for the given keys, in the order given. */
  function EncodeMembers(j: Json, keys: seq<string>): string
    requires j.Obj? && keys != [] && forall k :: k in keys ==> k in j.fields
    decreases j, 0, |keys|
  {
    Quote(keys[0]) + ":" + Encode(j.fields[keys[0]])
    + (if |keys| == 1 then [] else "," + EncodeMembers(j, keys[1..]))
  }

  // ---------- Reading ----------

  datatype Parsed<+T> = Malformed | Done(value: T, rest: string)

  function DecimalValue(t: string): nat
    requires forall i :: 0 <= i < |t| ==> IsDigit(t[i])
  {
    if t == [] then 0
    else
      assert IsDigit(t[|t| - 1]);
      DecimalValue(t[..|t| - 1]) * 10 + (t[|t| - 1] as int - '0' as int)
  }

  predicate AllDigits(t: string) { t != [] && forall i :: 0 <= i < |t| ==> IsDigit(t[i]) }

  /** A number token: an int literal, or a float kept as text. */
  function NumberOf(t: string): Parsed<Json> {
    if AllDigits(t) then Done(Int(DecimalValue(t)), [])
    else if t != [] && t[0] == '-' && AllDigits(t[1..]) then Done(Int(0 - DecimalValue(t[1..])), [])
    else if IsFloatText(t) then Done(Float(t), [])
    else Malformed
  }

  function NumberSpan(s: string): (n: nat)
    ensures n <= |s|
    ensures forall i :: 0 <= i < n ==> IsNumberChar(s[i])
    ensures n == |s| || !IsNumberChar(s[n])
  {
    if s == [] || !IsNumberChar(s[0]) then 0 else 1 + NumberSpan(s[1..])
  }

  function HexValue(c: char): Option<nat> {
    if '0' <= c <= '9' then Some(c as int - '0' as int)
    else if 'a' <= c <= 'f' then Some(c as int - 'a' as int + 10)
    else if 'A' <= c <= 'F' then Some(c as int - 'A' as int + 10)
    else None
  }

  /** One character of a string literal. */
  function ParseChar(s: string): (r: Parsed<char>)
    ensures r.Done? ==> |r.rest| < |s|
  {
    if s == [] || s[0] == '"' || s[0] as int < 32 then Malformed
    else if s[0] != '\\' then Done(s[0], s[1..])
    else if |s| < 2 then Malformed
    else match s[1]
      case '"' => Done('"', s[2..])
      case '\\' => Done('\\', s[2..])
      case '/' => Done('/', s[2..])
      case 'n' => Done('\n', s[2..])
      case 'r' => Done('\r', s[2..])
      case 't' => Done('\t', s[2..])
      case 'f' => Done(12 as char, s[2..])
      case 'b' => Done(8 as char, s[2..])
      case 'u' =>
        if |s| < 6 then Malformed
        else (
          match (HexValue(s[2]), HexValue(s[3]), HexValue(s[4]), HexValue(s[5]))
          case (Some(a), Some(b), Some(c), Some(d)) =>
            var code := ((a * 16 + b) * 16 + c) * 16 + d;
            if code < 0xD800 || 0xE000 <= code < 0x10000 then Done(code as char, s[6..]) else Malformed
          case _ => Malformed)
      case _ => Malformed
  }

  /** The rest of a string literal, after its opening quote. */
  function ParseText(s: string): (r: Parsed<string>)
    ensures r.Done? ==> |r.rest| < |s|
    decreases |s|
  {
    if s == [] then Malformed
    else if s[0] == '"' then Done([], s[1..])
    else
      match ParseChar(s)
      case Malformed => Malformed
      case Done(c, rest) =>
        match ParseText(rest)
        case Malformed => Malformed
        case Done(tail, last) => Done([c] + tail, last)
  }

  function ParseValue(s: string): (r: Parsed<Json>)
    ensures r.Done? ==> |r.rest| < |s|
    decreases |s|, 1
  {
    if s == [] then Malformed
    else if s[0] == 'n' then if |s| >= 4 && s[..4] == "null" then Done(Null, s[4..]) else Malformed
    else if s[0] == 't' then if |s| >= 4 && s[..4] == "true" then Done(Bool(true), s[4..]) else Malformed
    else if s[0] == 'f' then if |s| >= 5 && s[..5] == "false" then Done(Bool(false), s[5..]) else Malformed
    else if s[0] == '"' then
      match ParseText(s[1..])
      case Malformed => Malformed
      case Done(t, rest) => Done(Str(t), rest)
    else if s[0] == '[' then
      if |s| > 1 && s[1] == ']' then Done(Arr([]), s[2..])
      else (
        match ParseItems(s[1..])
        case Malformed => Malformed
        case Done(items, rest) => Done(Arr(items), rest))
    else if s[0] == '{' then
      if |s| > 1 && s[1] == '}' then Done(Obj(map[]), s[2..])
      else (
        match ParseMembers(s[1..])
        case Malformed => Malformed
        case Done(pairs, rest) => Done(Obj(MapOf(pairs)), rest))
    else
      var n := NumberSpan(s);
      match NumberOf(s[..n])
      case Malformed => Malformed
      case Done(v, _) => Done(v, s[n..])
  }

  function ParseItems(s: string): (r: Parsed<seq<Json>>)
    ensures r.Done? ==> |r.rest| < |s|
    decreases |s|, 2
  {
    match ParseValue(s)
    case Malformed => Malformed
    case Done(v, rest) =>
      if rest != [] && rest[0] == ']' then Done([v], rest[1..])
      else if rest != [] && rest[0] == ',' then
        match ParseItems(rest[1..])
        case Malformed => Malformed
        case Done(vs, last) => Done([v] + vs, last)
      else Malformed
  }

  function ParseMembers(s: string): (r: Parsed<seq<(string, Json)>>)
    ensures r.Done? ==> |r.rest| < |s|
    decreases |s|, 2
  {
    if s == [] || s[0] != '"' then Malformed
    else
      match ParseText(s[1..])
      case Malformed => Malformed
      case Done(k, colon) =>
        if colon == [] || colon[0] != ':' then Malformed
        else
          match ParseValue(colon[1..])
          case Malformed => Malformed
          case Done(v, rest) =>
            if rest != [] && rest[0] == '}' then Done([(k, v)], rest[1..])
            else if rest != [] && rest[0] == ',' then
              match ParseMembers(rest[1..])
              case Malformed => Malformed
              case Done(ps, last) => Done([(k, v)] + ps, last)
            else Malformed
  }

  /** A later member with the same name replaces an earlier one. */
  function MapOf(pairs: seq<(string, Json)>): map<string, Json> {
    if pairs == [] then map[] else MapOf(pairs[..|pairs| - 1])[pairs[|pairs| - 1].0 := pairs[|pairs| - 1].1]
  }

  /** `json.loads` on a whole document. */
  function Parse(s: string): Option<Json> {
    match ParseValue(s)
    case Malformed => None
    case Done(v, rest) => if rest == [] then Some(v) else None
  }

  // ---------- The round trip ----------

  lemma {:induction false} DecimalRoundTrip(n: nat)
    ensures DecimalValue(Decimal(n)) == n
  {
    if n < 10 {
      assert Decimal(n)[..0] == [];
    } else {
      DecimalRoundTrip(n / 10);
      assert Decimal(n)[..|Decimal(n)| - 1] == Decimal(n / 10);
    }
  }

  lemma IntRoundTrip(n: int)
    ensures NumberOf(IntText(n)) == Done(Int(n), [])
  {
    if n < 0 {
      DecimalRoundTrip(-n);
      assert IntText(n)[1..] == Decimal(-n);
    } else {
      DecimalRoundTrip(n);
    }
  }

  /** A number token followed by anything that is not a number character is read whole. */
  lemma {:induction false} SpanOf(t: string, rest: string)
    requires forall i :: 0 <= i < |t| ==> IsNumberChar(t[i])
    requires rest == [] || !IsNumberChar(rest[0])
    ensures NumberSpan(t + rest) == |t|
  {
    if t == [] {
      assert t + rest == rest;
    } else {
      assert (t + rest)[1..] == t[1..] + rest;
      SpanOf(t[1..], rest);
    }
  }

  lemma CharRoundTrip(c: char, rest: string)
    ensures EscapeChar(c)[0] != '"'
    ensures ParseChar(EscapeChar(c) + rest) == Done(c, rest)
  {
    var e := EscapeChar(c);
    var s := e + rest;
    assert s[|e|..] == rest;
    assert forall i :: 0 <= i < |e| ==> s[i] == e[i];
    if |e| == 6 {
      var hi, lo := c as int / 16, c as int % 16;
      assert HexValue(HexDigit(hi)) == Some(hi) && HexValue(HexDigit(lo)) == Some(lo);
      assert (hi * 16 + lo) as char == c;
    }
  }

  lemma {:induction false} TextRoundTrip(t: string, rest: string)
    ensures ParseText(Escape(t) + ['"'] + rest) == Done(t, rest)
  {
    if t == [] {
      assert Escape(t) + ['"'] + rest == ['"'] + rest;
    } else {
      var tail := Escape(t[1..]) + ['"'] + rest;
      EscapeFirst(t, rest);
      CharRoundTrip(t[0], tail);
      TextRoundTrip(t[1..], rest);
      hide Escape, EscapeChar, ParseChar;
      assert (EscapeChar(t[0]) + tail)[0] == EscapeChar(t[0])[0];
      assert t == [t[0]] + t[1..];
    }
  }

  lemma EscapeFirst(t: string, rest: string)
    requires t != []
    ensures Escape(t) + ['"'] + rest == EscapeChar(t[0]) + (Escape(t[1..]) + ['"'] + rest)
    ensures EscapeChar(t[0]) != []
  {
    hide EscapeChar;
  }

  lemma QuoteRoundTrip(t: string, rest: string)
    ensures Quote(t) + rest != [] && (Quote(t) + rest)[0] == '"'
    ensures ParseText((Quote(t) + rest)[1..]) == Done(t, rest)
  {
    assert (Quote(t) + rest)[1..] == Escape(t) + ['"'] + rest;
    TextRoundTrip(t, rest);
  }

  ghost predicate Delimited(rest: string) { rest == [] || !IsNumberChar(rest[0]) }

  /** How encodings start: never with a closing bracket. */
  lemma EncodeStarts(j: Json)
    ensures Encode(j) != [] && Encode(j)[0] !in {']', '}', ','}
  {
    match j
    case Float(t) => assert IsFloatText(t);
    case _ =>
  }

  lemma NumberRoundTrip(t: string, v: Json, rest: string)
    requires t != [] && (IsDigit(t[0]) || t[0] == '-') && NumberOf(t) == Done(v, [])
    requires forall i :: 0 <= i < |t| ==> IsNumberChar(t[i])
    requires Delimited(rest)
    ensures ParseValue(t + rest) == Done(v, rest)
  {
    SpanOf(t, rest);
    assert (t + rest)[..|t|] == t && (t + rest)[|t|..] == rest;
  }

  lemma ScalarRoundTrip(j: Json, rest: string)
    requires !j.Arr? && !j.Obj? && Delimited(rest)
    ensures ParseValue(Encode(j) + rest) == Done(j, rest)
  {
    var s := Encode(j) + rest;
    assert s[..|Encode(j)|] == Encode(j) && s[|Encode(j)|..] == rest;
    match j
    case Null => assert s[0] == 'n';
    case Bool(b) => assert s[0] == if b then 't' else 'f';
    case Int(n) => IntRoundTrip(n); NumberRoundTrip(IntText(n), j, rest);
    case Float(t) =>
      assert IsFloatText(t);
      var i :| 0 <= i < |t| && t[i] in {'.', 'e', 'E'};
      assert !AllDigits(t) && (i > 0 ==> t[1..][i - 1] == t[i]);
      NumberRoundTrip(t, j, rest);
    case Str(t) => QuoteRoundTrip(t, rest);
  }

  lemma {:induction false} ValueRoundTrip(j: Json, rest: string)
    requires Delimited(rest)
    ensures ParseValue(Encode(j) + rest) == Done(j, rest)
    decreases j, 2, 0
  {
    match j
    case Arr(items) => ArrayRoundTrip(j, rest);
    case Obj(fields) => ObjectRoundTrip(j, rest);
    case _ => ScalarRoundTrip(j, rest);
  }

  lemma {:induction false} ArrayRoundTrip(j: Json, rest: string)
    requires j.Arr?
    ensures ParseValue(Encode(j) + rest) == Done(j, rest)
    decreases j, 1, 0
  {
    var s := Encode(j) + rest;
    if j.items == [] {
      assert s[2..] == rest;
    } else {
      ItemsRoundTrip(j, 0, rest);
      var body := EncodeItems(j, 0) + "]" + rest;
      assert s == "[" + body;
      EncodeStarts(j.items[0]);
      assert s[1] == Encode(j.items[0])[0];
      BracketedItems(s, body, j.items, rest);
    }
  }

  lemma BracketedItems(s: string, body: string, items: seq<Json>, rest: string)
    requires s == "[" + body && body != [] && body[0] != ']'
    requires ParseItems(body) == Done(items[0..], rest)
    ensures ParseValue(s) == Done(Arr(items), rest)
  {
    assert s[1..] == body && items[0..] == items;
  }

  lemma ObjectText(j: Json, keys: seq<string>, rest: string)
    requires j.Obj? && j.fields != map[] && keys == SortedKeys(j.fields)
    ensures var body := EncodeMembers(j, keys) + "}" + rest;
      Encode(j) + rest == "{" + body && body[0] == '"'
  {
    FirstMember(j, keys, rest);
    Braces(EncodeMembers(j, keys), rest);
  }

  lemma Braces(m: string, rest: string)
    ensures "{" + m + "}" + rest == "{" + (m + "}" + rest)
  {}

  lemma {:induction false} ObjectRoundTrip(j: Json, rest: string)
    requires j.Obj?
    ensures ParseValue(Encode(j) + rest) == Done(j, rest)
    decreases j, 1, 0
  {
    if j.fields == map[] {
      assert (Encode(j) + rest)[2..] == rest;
    } else {
      var keys := SortedKeys(j.fields);
      var body := EncodeMembers(j, keys) + "}" + rest;
      ObjectText(j, keys, rest);
      MembersRoundTrip(j, keys, rest);
      PairsOfMap(j.fields, keys);
      BracedMembers("{" + body, body, PairsOf(j.fields, keys), rest);
    }
  }

  lemma BracedMembers(s: string, body: string, pairs: seq<(string, Json)>, rest: string)
    requires s == "{" + body && body != [] && body[0] == '"'
    requires ParseMembers(body) == Done(pairs, rest)
    ensures ParseValue(s) == Done(Obj(MapOf(pairs)), rest)
  {
    assert s[1..] == body;
  }

  /** One element, read up to the separator that follows it. */
  lemma ItemRoundTrip(v: Json, after: string)
    requires ParseValue(Encode(v) + after) == Done(v, after)
    requires after != [] && after[0] in {',', ']'}
    ensures ParseItems(Encode(v) + after) ==
      if after[0] == ']' then Done([v], after[1..])
      else match ParseItems(after[1..])
        case Malformed => Malformed
        case Done(vs, last) => Done([v] + vs, last)
  {}

  lemma {:induction false} ItemsRoundTrip(j: Json, i: nat, rest: string)
    requires j.Arr? && i < |j.items|
    ensures ParseItems(EncodeItems(j, i) + "]" + rest) == Done(j.items[i..], rest)
    decreases j, 0, |j.items| - i
  {
    var v := j.items[i];
    if i + 1 == |j.items| {
      var after := "]" + rest;
      assert EncodeItems(j, i) + "]" + rest == Encode(v) + after;
      ValueRoundTrip(v, after);
      ItemRoundTrip(v, after);
      assert j.items[i..] == [v];
      assert after[1..] == rest;
    } else {
      var next := EncodeItems(j, i + 1) + "]" + rest;
      var after := "," + next;
      assert EncodeItems(j, i) + "]" + rest ==
        Encode(v) + after by { RegroupItem(Encode(v), EncodeItems(j, i + 1), rest); }
      ValueRoundTrip(v, after);
      ItemRoundTrip(v, after);
      ItemsRoundTrip(j, i + 1, rest);
      assert after[1..] == next;
      assert j.items[i..] == [v] + j.items[i + 1..];
    }
  }

  lemma RegroupItem(e: string, m: string, rest: string)
    ensures (e + ("," + m)) + "]" + rest == e + ("," + (m + "]" + rest))
  {}

  function PairsOf(fields: map<string, Json>, keys: seq<string>): (r: seq<(string, Json)>)
    requires forall k :: k in keys ==> k in fields
    ensures |r| == |keys|
  {
    seq(|keys|, i requires 0 <= i < |keys| => (keys[i], fields[keys[i]]))
  }

  /** One member, read up to the separator that follows it. */
  lemma MemberRoundTrip(s: string, k: string, v: Json, after: string)
    requires s == Quote(k) + (":" + (Encode(v) + after))
    requires ParseValue(Encode(v) + after) == Done(v, after)
    requires after != [] && after[0] in {',', '}'}
    ensures ParseMembers(s) ==
      if after[0] == '}' then Done([(k, v)], after[1..])
      else match ParseMembers(after[1..])
        case Malformed => Malformed
        case Done(ps, last) => Done([(k, v)] + ps, last)
  {
    var colon := ":" + (Encode(v) + after);
    QuoteRoundTrip(k, colon);
    assert colon[1..] == Encode(v) + after;
  }

  /** What follows the first member of an object being written. */
  function AfterFirst(j: Json, keys: seq<string>, rest: string): (r: string)
    requires j.Obj? && keys != [] && forall k :: k in keys ==> k in j.fields
    ensures r != [] && r[0] in {',', '}'}
  {
    if |keys| == 1 then "}" + rest else "," + (EncodeMembers(j, keys[1..]) + "}" + rest)
  }

  lemma Regroup(q: string, e: string, m: string, rest: string)
    ensures (q + ":" + e + ("," + m)) + "}" + rest == q + (":" + (e + ("," + (m + "}" + rest))))
    ensures (q + ":" + e + []) + "}" + rest == q + (":" + (e + ("}" + rest)))
  {}

  lemma FirstMember(j: Json, keys: seq<string>, rest: string)
    requires j.Obj? && keys != [] && forall k :: k in keys ==> k in j.fields
    ensures EncodeMembers(j, keys) + "}" + rest
         == Quote(keys[0]) + (":" + (Encode(j.fields[keys[0]]) + AfterFirst(j, keys, rest)))
  {
    var m := if |keys| == 1 then [] else EncodeMembers(j, keys[1..]);
    Regroup(Quote(keys[0]), Encode(j.fields[keys[0]]), m, rest);
  }

  lemma PairsOfStep(fields: map<string, Json>, keys: seq<string>)
    requires keys != [] && forall k :: k in keys ==> k in fields
    ensures |keys| == 1 ==> PairsOf(fields, keys) == [(keys[0], fields[keys[0]])]
    ensures |keys| > 1 ==> PairsOf(fields, keys) == [(keys[0], fields[keys[0]])] + PairsOf(fields, keys[1..])
  {}

  lemma {:induction false} MembersRoundTrip(j: Json, keys: seq<string>, rest: string)
    requires j.Obj? && keys != [] && forall k :: k in keys ==> k in j.fields
    ensures ParseMembers(EncodeMembers(j, keys) + "}" + rest) == Done(PairsOf(j.fields, keys), rest)
    decreases j, 0, |keys|
  {
    var v, after := j.fields[keys[0]], AfterFirst(j, keys, rest);
    FirstMember(j, keys, rest);
    ValueRoundTrip(v, after);
    MemberRoundTrip(EncodeMembers(j, keys) + "}" + rest, keys[0], v, after);
    PairsOfStep(j.fields, keys);
    if |keys| == 1 {
      assert after[1..] == rest;
    } else {
      MembersRoundTrip(j, keys[1..], rest);
      assert after[1..] == EncodeMembers(j, keys[1..]) + "}" + rest;
    }
  }

  lemma {:induction false} PairsOfPrefix(fields: map<string, Json>, keys: seq<string>)
    requires forall k :: k in keys ==> k in fields
    ensures MapOf(PairsOf(fields, keys)) == map k | k in keys :: fields[k]
  {
    if keys != [] {
      var n := |keys| - 1;
      assert PairsOf(fields, keys)[..n] == PairsOf(fields, keys[..n]);
      PairsOfPrefix(fields, keys[..n]);
      assert forall k :: k in keys <==> k in keys[..n] || k == keys[n];
    }
  }

  lemma PairsOfMap(fields: map<string, Json>, keys: seq<string>)
    requires forall k :: k in keys <==> k in fields
    ensures MapOf(PairsOf(fields, keys)) == fields
  {
    PairsOfPrefix(fields, keys);
  }

  /** What the canonical writer emits, the reader reads back as the same value. */
  lemma RoundTrip(j: Json)
    ensures Parse(Encode(j)) == Some(j)
  {
    ValueRoundTrip(j, []);
    assert Encode(j) + [] == Encode(j);
  }

  /** Equal canonical texts carry equal values, so a signature or a hash over the text binds the value. */
  lemma EncodeInjective(a: Json, b: Json)
    requires Encode(a) == Encode(b)
    ensures a == b
  {
    RoundTrip(a);
    RoundTrip(b);
  }
}
