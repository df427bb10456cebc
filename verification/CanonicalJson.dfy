/** The canonical JSON encoding of the wallet, its decoder, and the hexadecimal digest form. */
module CanonicalJson {
  import opened Common
  import opened Utf16

  const QUOTE: Unit := 34
  const BACKSLASH: Unit := 92
  const COMMA: Unit := 44
  const COLON: Unit := 58
  const LBRACE: Unit := 123
  const RBRACE: Unit := 125
  const LBRACKET: Unit := 91
  const RBRACKET: Unit := 93
  const MINUS: Unit := 45
  const ZERO: Unit := 48
  const NULL_TEXT: Text := [110, 117, 108, 108]
  const TRUE_TEXT: Text := [116, 114, 117, 101]
  const FALSE_TEXT: Text := [102, 97, 108, 115, 101]

  /** `JOther` stands for every value without a canonical form, such as a double. */
  datatype Json =
    | JObject(fields: map<Text, Json>)
    | JArray(items: seq<Json>)
    | JString(text: Text)
    | JInt(number: int)
    | JBool(flag: bool)
    | JNull
    | JOther

  /** A value whose object fields have been put in writing order. */
  datatype Doc =
    | DObject(members: seq<Member>)
    | DArray(elements: seq<Doc>)
    | DString(text: Text)
    | DInt(number: int)
    | DBool(flag: bool)
    | DNull

  datatype Member = Member(key: Text, value: Doc)

  predicate Encodable(v: Json) {
    match v
    case JObject(fields) => forall k :: k in fields ==> Encodable(fields[k])
    case JArray(items) => forall i :: 0 <= i < |items| ==> Encodable(items[i])
    case JOther => false
    case _ => true
  }

  // ----- Sorted keys -----

  ghost predicate Ascending(order: KeyOrder, keys: seq<Text>) {
    forall i, j :: 0 <= i < j < |keys| ==> Less(order, keys[i], keys[j])
  }

  ghost predicate Lists(keys: seq<Text>, s: set<Text>) {
    forall k :: k in keys <==> k in s
  }

  ghost predicate IsLeast(order: KeyOrder, s: set<Text>, k: Text) {
    k in s && forall o :: o in s && o != k ==> Less(order, k, o)
  }

  lemma {:induction false} HasLeast(order: KeyOrder, s: set<Text>) returns (k: Text)
    requires s != {}
    ensures IsLeast(order, s, k)
  {
    hide Less;
    var any :| any in s;
    var rest := s - {any};
    k := any;
    assert forall o :: o in s ==> o == any || o in rest;
    if rest != {} {
      var m := HasLeast(order, rest);
      Total(order, any, m);
      if Less(order, any, m) {
        forall o | o in s && o != any
          ensures Less(order, any, o)
        {
          if o != m { Transitive(order, any, m, o); }
        }
      } else {
        k := m;
      }
    }
  }

  lemma SomeLeast(order: KeyOrder, s: set<Text>)
    requires s != {}
    ensures exists k :: IsLeast(order, s, k)
  {
    var k := HasLeast(order, s);
  }

  ghost function Sorted(order: KeyOrder, s: set<Text>): seq<Text> {
    if s == {} then []
    else
      SomeLeast(order, s);
      var k :| IsLeast(order, s, k);
      [k] + Sorted(order, s - {k})
  }

  lemma SortedStep(order: KeyOrder, s: set<Text>)
    requires s != {}
    ensures Sorted(order, s) != [] && Sorted(order, s)[0] in s && IsLeast(order, s, Sorted(order, s)[0])
    ensures Sorted(order, s) == [Sorted(order, s)[0]] + Sorted(order, s - {Sorted(order, s)[0]})
  {
    SomeLeast(order, s);
    hide Less;
  }

  lemma LeastFirst(order: KeyOrder, s: set<Text>, k: Text, rest: seq<Text>)
    requires IsLeast(order, s, k) && Ascending(order, rest) && Lists(rest, s - {k})
    ensures Ascending(order, [k] + rest) && Lists([k] + rest, s)
  {
    hide Less;
    var all := [k] + rest;
    forall i, j | 0 <= i < j < |all|
      ensures Less(order, all[i], all[j])
    {
      assert all[j] == rest[j - 1] && rest[j - 1] in s - {k};
    }
  }

  lemma {:induction false} SortedIsAscending(order: KeyOrder, s: set<Text>)
    ensures Ascending(order, Sorted(order, s)) && Lists(Sorted(order, s), s)
  {
    hide Less, IsLeast;
    if s != {} {
      SortedStep(order, s);
      var k := Sorted(order, s)[0];
      SortedIsAscending(order, s - {k});
      hide Sorted, Ascending, Lists;
      LeastFirst(order, s, k, Sorted(order, s - {k}));
    }
  }

  /** Sorting has one outcome: two ascending lists of the same keys are equal. */
  lemma {:induction false} AscendingIsUnique(order: KeyOrder, a: seq<Text>, b: seq<Text>, s: set<Text>)
    requires Ascending(order, a) && Ascending(order, b) && Lists(a, s) && Lists(b, s)
    ensures a == b
  {
    hide Less;
    assert a != [] ==> a[0] in s;
    assert b != [] ==> b[0] in s;
    if a != [] && b != [] {
      Total(order, a[0], b[0]);
      var i :| 0 <= i < |b| && b[i] == a[0];
      var j :| 0 <= j < |a| && a[j] == b[0];
      assert a[0] == b[0];
      AscendingTail(order, a, s);
      AscendingTail(order, b, s);
      AscendingIsUnique(order, a[1..], b[1..], s - {a[0]});
      assert a == [a[0]] + a[1..] && b == [b[0]] + b[1..];
    }
  }

  lemma AscendingTail(order: KeyOrder, a: seq<Text>, s: set<Text>)
    requires a != [] && Ascending(order, a) && Lists(a, s)
    ensures Ascending(order, a[1..]) && Lists(a[1..], s - {a[0]})
  {
    Total(order, a[0], a[0]);
    hide Less;
    forall i | 0 <= i < |a[1..]|
      ensures a[1..][i] != a[0]
    {
      assert Less(order, a[0], a[i + 1]);
    }
    assert forall k :: k in a <==> k == a[0] || k in a[1..] by { assert a == [a[0]] + a[1..]; }
  }

  // ----- Encoding -----

  ghost function Arrange(order: KeyOrder, v: Json): Doc
    requires Encodable(v)
    decreases v, 0
  {
    match v
    case JObject(fields) =>
      SortedIsAscending(order, fields.Keys);
      DObject(ArrangeFields(order, v, Sorted(order, fields.Keys)))
    case JArray(items) => DArray(ArrangeItems(order, items))
    case JString(text) => DString(text)
    case JInt(number) => DInt(number)
    case JBool(flag) => DBool(flag)
    case JNull => DNull
  }

  ghost function ArrangeFields(order: KeyOrder, v: Json, keys: seq<Text>): (members: seq<Member>)
    requires v.JObject? && Encodable(v) && forall k :: k in keys ==> k in v.fields
    ensures |members| == |keys|
    ensures forall i :: 0 <= i < |keys| ==> members[i] == Member(keys[i], Arrange(order, v.fields[keys[i]]))
    decreases v, 0, |keys|
  {
    if keys == [] then []
    else [Member(keys[0], Arrange(order, v.fields[keys[0]]))] + ArrangeFields(order, v, keys[1..])
  }

  lemma ArrangeObject(order: KeyOrder, v: Json)
    requires v.JObject? && Encodable(v)
    ensures Ascending(order, Sorted(order, v.fields.Keys)) && Lists(Sorted(order, v.fields.Keys), v.fields.Keys)
    ensures Arrange(order, v) == DObject(ArrangeFields(order, v, Sorted(order, v.fields.Keys)))
  {
    SortedIsAscending(order, v.fields.Keys);
    hide Sorted, Ascending;
  }

  ghost function ArrangeItems(order: KeyOrder, items: seq<Json>): (docs: seq<Doc>)
    requires forall i :: 0 <= i < |items| ==> Encodable(items[i])
    ensures |docs| == |items|
    ensures forall i :: 0 <= i < |items| ==> docs[i] == Arrange(order, items[i])
    decreases items, 0
  {
    if items == [] then [] else [Arrange(order, items[0])] + ArrangeItems(order, items[1..])
  }

  /** Four lower-case hexadecimal digits are needed only for control characters, all below 32. */
  function HexDigit(n: int): (r: Unit)
    requires 0 <= n < 16
  {
    if n < 10 then ZERO + n else 87 + n
  }

  function Escape(c: Unit): Text {
    if c == QUOTE then [BACKSLASH, QUOTE]
    else if c == BACKSLASH then [BACKSLASH, BACKSLASH]
    else if c == 8 then [BACKSLASH, 98]
    else if c == 12 then [BACKSLASH, 102]
    else if c == 10 then [BACKSLASH, 110]
    else if c == 13 then [BACKSLASH, 114]
    else if c == 9 then [BACKSLASH, 116]
    else if c < 32 then [BACKSLASH, 117, ZERO, ZERO, HexDigit(c / 16), HexDigit(c % 16)]
    else [c]
  }

  function EscapeAll(t: Text): Text {
    if t == [] then [] else Escape(t[0]) + EscapeAll(t[1..])
  }

  function Quoted(t: Text): Text {
    [QUOTE] + EscapeAll(t) + [QUOTE]
  }

  function Digits(n: nat): Text {
    if n < 10 then [ZERO + n] else Digits(n / 10) + [ZERO + n % 10]
  }

  function Decimal(n: int): Text {
    if n < 0 then [MINUS] + Digits(-n) else Digits(n)
  }

  function Join(parts: seq<Text>): Text {
    if parts == [] then []
    else if |parts| == 1 then parts[0]
    else parts[0] + [COMMA] + Join(parts[1..])
  }

  function Write(d: Doc): Text {
    match d
    case DObject(members) => [LBRACE] + Join(WriteMembers(members)) + [RBRACE]
    case DArray(elements) => [LBRACKET] + Join(WriteElements(elements)) + [RBRACKET]
    case DString(text) => Quoted(text)
    case DInt(number) => Decimal(number)
    case DBool(flag) => if flag then TRUE_TEXT else FALSE_TEXT
    case DNull => NULL_TEXT
  }

  function WriteMember(m: Member): Text {
    Quoted(m.key) + [COLON] + Write(m.value)
  }

  function WriteMembers(members: seq<Member>): (parts: seq<Text>)
    ensures |parts| == |members|
    ensures forall i :: 0 <= i < |members| ==> parts[i] == WriteMember(members[i])
  {
    if members == [] then [] else [WriteMember(members[0])] + WriteMembers(members[1..])
  }

  function WriteElements(elements: seq<Doc>): (parts: seq<Text>)
    ensures |parts| == |elements|
    ensures forall i :: 0 <= i < |elements| ==> parts[i] == Write(elements[i])
  {
    if elements == [] then [] else [Write(elements[0])] + WriteElements(elements[1..])
  }

  /** The canonical text of a value, its object keys sorted in the given order. */
  ghost function Encode(order: KeyOrder, v: Json): Text
    requires Encodable(v)
  {
    Write(Arrange(order, v))
  }

  /** A Java `long`. */
  predicate InLong(n: int) {
    -0x8000_0000_0000_0000 <= n < 0x8000_0000_0000_0000
  }

  predicate IntsFit(v: Json) {
    match v
    case JObject(fields) => forall k :: k in fields ==> IntsFit(fields[k])
    case JArray(items) => forall i :: 0 <= i < |items| ==> IntsFit(items[i])
    case JInt(number) => InLong(number)
    case _ => true
  }

  /** What the wallet can write: it knows no integers beyond 64 bits. */
  predicate Writable(v: Json) {
    Encodable(v) && IntsFit(v)
  }

  /** What the wallet computes: keys in unit order, or a refusal. */
  ghost function WalletText(v: Json): Outcome<Text> {
    if Writable(v) then Ok(Encode(ByUnits, v)) else Err("unsupported canonical JSON value")
  }

  // ----- Decoding -----

  datatype Parsed<T> = Parsed(value: T, rest: Text)

  predicate IsDigit(c: Unit) {
    ZERO <= c <= ZERO + 9
  }

  function HexValue(c: Unit): Option<int> {
    if IsDigit(c) then Some(c - ZERO) else if 97 <= c <= 102 then Some(c - 87) else None
  }

  /** The character an escape stands for, and how many units it takes. */
  function Unescape(t: Text): (r: Option<(Unit, nat)>)
    ensures r.Some? ==> 1 <= r.value.1 <= |t|
  {
    if |t| < 1 then None
    else if t[0] != BACKSLASH then Some((t[0], 1))
    else if |t| < 2 then None
    else if t[1] == QUOTE || t[1] == BACKSLASH then Some((t[1], 2))
    else if t[1] == 98 then Some((8, 2))
    else if t[1] == 102 then Some((12, 2))
    else if t[1] == 110 then Some((10, 2))
    else if t[1] == 114 then Some((13, 2))
    else if t[1] == 116 then Some((9, 2))
    else if t[1] != 117 || |t| < 6 then None
    else
      var (a, b, c, d) := (HexValue(t[2]), HexValue(t[3]), HexValue(t[4]), HexValue(t[5]));
      if a == None || b == None || c == None || d == None then None
      else Some((a.value * 0x1000 + b.value * 0x100 + c.value * 0x10 + d.value, 6))
  }

  /** Reads up to and including the closing quote. */
  function ParseString(t: Text): (r: Option<Parsed<Text>>)
    ensures r.Some? ==> |r.value.rest| < |t|
  {
    if t == [] then None
    else if t[0] == QUOTE then Some(Parsed([], t[1..]))
    else
      var c := Unescape(t);
      if c == None then None
      else
        var tail := ParseString(t[c.value.1..]);
        if tail == None then None
        else Some(Parsed([c.value.0] + tail.value.value, tail.value.rest))
  }

  function ParseDigits(t: Text, sum: nat): (r: Parsed<nat>)
    ensures |r.rest| <= |t|
  {
    if t == [] || !IsDigit(t[0]) then Parsed(sum, t)
    else ParseDigits(t[1..], 10 * sum + (t[0] - ZERO))
  }

  function ParseWord(t: Text, word: Text, d: Doc): (r: Option<Parsed<Doc>>)
    requires word != []
    ensures r.Some? ==> |r.value.rest| < |t|
  {
    if word <= t then Some(Parsed(d, t[|word|..])) else None
  }

  function ParseDoc(t: Text): (r: Option<Parsed<Doc>>)
    ensures r.Some? ==> |r.value.rest| < |t|
    decreases |t|, 0
  {
    if t == [] then None
    else if t[0] == LBRACE then
      if |t| > 1 && t[1] == RBRACE then Some(Parsed(DObject([]), t[2..]))
      else
        var m := ParseMembers(t[1..]);
        if m == None then None else Some(Parsed(DObject(m.value.value), m.value.rest))
    else if t[0] == LBRACKET then
      if |t| > 1 && t[1] == RBRACKET then Some(Parsed(DArray([]), t[2..]))
      else
        var e := ParseElements(t[1..]);
        if e == None then None else Some(Parsed(DArray(e.value.value), e.value.rest))
    else if t[0] == QUOTE then
      var s := ParseString(t[1..]);
      if s == None then None else Some(Parsed(DString(s.value.value), s.value.rest))
    else if t[0] == MINUS then
      if |t| > 1 && IsDigit(t[1]) then
        var n := ParseDigits(t[1..], 0);
        var magnitude: int := n.value;
        Some(Parsed(DInt(-magnitude), n.rest))
      else None
    else if IsDigit(t[0]) then
      var n := ParseDigits(t[1..], t[0] - ZERO);
      Some(Parsed(DInt(n.value), n.rest))
    else if t[0] == 110 then ParseWord(t, NULL_TEXT, DNull)
    else if t[0] == 116 then ParseWord(t, TRUE_TEXT, DBool(true))
    else ParseWord(t, FALSE_TEXT, DBool(false))
  }

  function ParseMember(t: Text): (r: Option<Parsed<Member>>)
    ensures r.Some? ==> |r.value.rest| < |t|
    decreases |t|, 1
  {
    if t == [] || t[0] != QUOTE then None
    else
      var key := ParseString(t[1..]);
      if key == None || key.value.rest == [] || key.value.rest[0] != COLON then None
      else
        var value := ParseDoc(key.value.rest[1..]);
        if value == None then None
        else Some(Parsed(Member(key.value.value, value.value.value), value.value.rest))
  }

  function ParseMembers(t: Text): (r: Option<Parsed<seq<Member>>>)
    ensures r.Some? ==> |r.value.rest| < |t|
    decreases |t|, 2
  {
    var first := ParseMember(t);
    if first == None || first.value.rest == [] then None
    else if first.value.rest[0] == RBRACE then Some(Parsed([first.value.value], first.value.rest[1..]))
    else if first.value.rest[0] != COMMA then None
    else
      var more := ParseMembers(first.value.rest[1..]);
      if more == None then None
      else Some(Parsed([first.value.value] + more.value.value, more.value.rest))
  }

  function ParseElements(t: Text): (r: Option<Parsed<seq<Doc>>>)
    ensures r.Some? ==> |r.value.rest| < |t|
    decreases |t|, 2
  {
    var first := ParseDoc(t);
    if first == None || first.value.rest == [] then None
    else if first.value.rest[0] == RBRACKET then Some(Parsed([first.value.value], first.value.rest[1..]))
    else if first.value.rest[0] != COMMA then None
    else
      var more := ParseElements(first.value.rest[1..]);
      if more == None then None
      else Some(Parsed([first.value.value] + more.value.value, more.value.rest))
  }

  /** Forgets the order of the fields; of equal keys the first wins. */
  function Forget(d: Doc): Json
    decreases d, 0
  {
    match d
    case DObject(members) => JObject(ForgetMembers(members))
    case DArray(elements) => JArray(ForgetElements(elements))
    case DString(text) => JString(text)
    case DInt(number) => JInt(number)
    case DBool(flag) => JBool(flag)
    case DNull => JNull
  }

  function ForgetMembers(members: seq<Member>): map<Text, Json>
    decreases members, 0
  {
    if members == [] then map[]
    else ForgetMembers(members[1..])[members[0].key := Forget(members[0].value)]
  }

  function ForgetElements(elements: seq<Doc>): seq<Json>
    decreases elements, 0
  {
    if elements == [] then [] else [Forget(elements[0])] + ForgetElements(elements[1..])
  }

  function Decode(t: Text): Option<Json> {
    var d := ParseDoc(t);
    if d == None || d.value.rest != [] then None else Some(Forget(d.value.value))
  }

  // ----- The round trip of strings, numbers and documents -----

  lemma UnescapeEscape(c: Unit, rest: Text)
    ensures Unescape(Escape(c) + rest) == Some((c, |Escape(c)|))
    ensures Escape(c)[0] != QUOTE
  {
    var t := Escape(c) + rest;
    assert t[..|Escape(c)|] == Escape(c);
    if |Escape(c)| == 6 {
      assert t[4] == HexDigit(c / 16) && t[5] == HexDigit(c % 16);
      assert HexValue(t[2]) == Some(0) && HexValue(t[3]) == Some(0);
      assert HexValue(t[4]) == Some(c / 16) && HexValue(t[5]) == Some(c % 16);
    }
  }

  lemma ParseStringStep(c: Unit, tail: Text, s: Text, rest: Text)
    requires ParseString(tail) == Some(Parsed(s, rest))
    ensures ParseString(Escape(c) + tail) == Some(Parsed([c] + s, rest))
  {
    var t := Escape(c) + tail;
    UnescapeEscape(c, tail);
    hide Unescape, Escape;
    assert t[0] == Escape(c)[0] && t[|Escape(c)|..] == tail;
  }

  lemma {:induction false} ParseEscaped(s: Text, rest: Text)
    ensures ParseString(EscapeAll(s) + ([QUOTE] + rest)) == Some(Parsed(s, rest))
  {
    var closing := [QUOTE] + rest;
    if s == [] {
      assert EscapeAll(s) + closing == closing && closing[1..] == rest;
    } else {
      ParseEscaped(s[1..], rest);
      GlueLast(Escape(s[0]), EscapeAll(s[1..]), closing);
      assert s == [s[0]] + s[1..];
      hide Escape, ParseString;
      ParseStringStep(s[0], EscapeAll(s[1..]) + closing, s[1..], rest);
    }
  }

  /** What may follow a value inside a document, or nothing. */
  predicate Stops(rest: Text) {
    rest == [] || rest[0] == COMMA || rest[0] == RBRACE || rest[0] == RBRACKET
  }

  lemma StopsAt(c: Unit, t: Text)
    requires c == COMMA || c == RBRACE || c == RBRACKET
    ensures Stops([c] + t)
  {
  }

  lemma {:induction false} ParseDigitsWritten(n: nat, rest: Text)
    ensures IsDigit(Digits(n)[0])
    ensures ParseDigits(Digits(n) + rest, 0) == ParseDigits(rest, n)
  {
    if n < 10 {
      assert ([ZERO + n] + rest)[1..] == rest;
    } else {
      var d := ZERO + n % 10;
      ParseDigitsWritten(n / 10, [d] + rest);
      assert Digits(n) + rest == Digits(n / 10) + ([d] + rest);
      assert ([d] + rest)[1..] == rest;
    }
  }

  lemma ParseDecimal(n: int, rest: Text)
    requires Stops(rest)
    ensures ParseDoc(Decimal(n) + rest) == Some(Parsed(DInt(n), rest))
  {
    var m := if n < 0 then -n else n;
    var t := Digits(m) + rest;
    ParseDigitsWritten(m, rest);
    hide Digits;
    assert t[0] == Digits(m)[0];
    assert ParseDigits(rest, m) == Parsed(m, rest);
    assert ParseDigits(t, 0) == ParseDigits(t[1..], t[0] - ZERO);
    hide ParseDigits, ParseMembers, ParseElements, ParseString, ParseWord;
    if n < 0 {
      assert Decimal(n) + rest == [MINUS] + t;
      assert ([MINUS] + t)[1..] == t;
    }
  }

  lemma ParseQuoted(s: Text, rest: Text)
    ensures var t := Quoted(s) + rest;
            t[0] == QUOTE && ParseString(t[1..]) == Some(Parsed(s, rest))
  {
    ParseEscaped(s, rest);
    hide EscapeAll, ParseString;
    assert (Quoted(s) + rest)[1..] == EscapeAll(s) + ([QUOTE] + rest);
  }

  lemma GlueLast(part: Text, close: Text, rest: Text)
    ensures part + close + rest == part + (close + rest)
  {
  }

  lemma GlueNext(part: Text, joined: Text, close: Text, rest: Text)
    ensures part + [COMMA] + joined + close + rest == part + ([COMMA] + (joined + close + rest))
  {
    var tail := joined + close + rest;
    GlueLast(joined, close, rest);
    GlueLast(part + [COMMA], joined, close + rest);
    GlueLast(part + [COMMA] + joined, close, rest);
    GlueLast(part, [COMMA], tail);
  }

  lemma JoinSplits(parts: seq<Text>)
    requires parts != []
    ensures |parts| == 1 ==> Join(parts) == parts[0]
    ensures |parts| > 1 ==> Join(parts) == parts[0] + [COMMA] + Join(parts[1..])
  {
  }

  lemma JoinStarts(parts: seq<Text>)
    requires parts != [] && parts[0] != []
    ensures Join(parts) != [] && Join(parts)[0] == parts[0][0]
  {
    if |parts| > 1 {
      assert Join(parts) == parts[0] + ([COMMA] + Join(parts[1..]));
    }
  }

  /** The parser reads back any written document and leaves what follows it untouched. */
  lemma {:induction false} ParseWritten(d: Doc, rest: Text)
    requires Stops(rest)
    ensures ParseDoc(Write(d) + rest) == Some(Parsed(d, rest))
    decreases d, 2
  {
    var t := Write(d) + rest;
    match d
    case DString(text) =>
      ParseQuoted(text, rest);
    case DInt(number) =>
      ParseDecimal(number, rest);
    case DBool(flag) =>
      assert t[..|Write(d)|] == Write(d) && t[|Write(d)|..] == rest;
    case DNull =>
      assert t[..4] == NULL_TEXT && t[4..] == rest;
    case DObject(members) =>
      ParseWrittenObject(members, rest);
    case DArray(elements) =>
      ParseWrittenArray(elements, rest);
  }

  lemma {:induction false} ParseWrittenObject(members: seq<Member>, rest: Text)
    requires Stops(rest)
    ensures ParseDoc(Write(DObject(members)) + rest) == Some(Parsed(DObject(members), rest))
    decreases members, 1
  {
    var t := Write(DObject(members)) + rest;
    if members == [] {
      assert t == [LBRACE, RBRACE] + rest;
      assert t[2..] == rest;
    } else {
      ParseWrittenMembers(members, rest);
      var body := Join(WriteMembers(members)) + [RBRACE] + rest;
      assert t == [LBRACE] + body;
      assert t[1..] == body;
      assert t[1] == body[0] == QUOTE;
      hide Join, WriteMembers, ParseMembers;
    }
  }

  lemma {:induction false} ParseWrittenMember(m: Member, rest: Text)
    requires Stops(rest)
    ensures ParseMember(WriteMember(m) + rest) == Some(Parsed(m, rest))
    ensures WriteMember(m)[0] == QUOTE
    decreases m, 3
  {
    var after := [COLON] + (Write(m.value) + rest);
    assert WriteMember(m) + rest == Quoted(m.key) + after;
    ParseQuoted(m.key, after);
    ParseWritten(m.value, rest);
    assert WriteMember(m)[0] == Quoted(m.key)[0] == QUOTE;
    hide *;
    MemberParts(WriteMember(m) + rest, m, after, rest);
  }

  lemma MemberParts(t: Text, m: Member, after: Text, rest: Text)
    requires t != [] && t[0] == QUOTE && ParseString(t[1..]) == Some(Parsed(m.key, after))
    requires after != [] && after[0] == COLON && ParseDoc(after[1..]) == Some(Parsed(m.value, rest))
    ensures ParseMember(t) == Some(Parsed(m, rest))
  {
    hide ParseDoc, ParseString;
  }

  lemma LastMember(t: Text, m: Member, rest: Text)
    requires ParseMember(t) == Some(Parsed(m, [RBRACE] + rest))
    ensures ParseMembers(t) == Some(Parsed([m], rest))
  {
    hide ParseMember;
    assert ([RBRACE] + rest)[1..] == rest;
  }

  lemma NextMember(t: Text, m: Member, next: Text, more: seq<Member>, rest: Text)
    requires ParseMember(t) == Some(Parsed(m, [COMMA] + next))
    requires ParseMembers(next) == Some(Parsed(more, rest))
    ensures ParseMembers(t) == Some(Parsed([m] + more, rest))
  {
    hide ParseMember;
    assert ([COMMA] + next)[1..] == next;
  }

  lemma {:induction false} ParseWrittenMembers(members: seq<Member>, rest: Text)
    requires members != []
    ensures ParseMembers(Join(WriteMembers(members)) + [RBRACE] + rest) == Some(Parsed(members, rest))
    ensures Join(WriteMembers(members)) != [] && Join(WriteMembers(members))[0] == QUOTE
    decreases members, 0
  {
    hide *;
    var m, more := members[0], members[1..];
    JoinSplits(WriteMembers(members));
    MembersSplit(members);
    MemberStarts(m);
    JoinStarts(WriteMembers(members));
    assert members == [m] + more;
    if more == [] {
      StopsAt(RBRACE, rest);
      assert members == [m];
      ParseWrittenMember(m, [RBRACE] + rest);
      GlueLast(WriteMember(m), [RBRACE], rest);
      LastMember(WriteMember(m) + ([RBRACE] + rest), m, rest);
    } else {
      var joined := Join(WriteMembers(more));
      StopsAt(COMMA, joined + [RBRACE] + rest);
      ParseWrittenMembers(more, rest);
      ParseWrittenMember(m, [COMMA] + (joined + [RBRACE] + rest));
      GlueNext(WriteMember(m), joined, [RBRACE], rest);
      NextMember(WriteMember(m) + ([COMMA] + (joined + [RBRACE] + rest)), m, joined + [RBRACE] + rest, more, rest);
    }
  }

  lemma MemberStarts(m: Member)
    ensures WriteMember(m) != [] && WriteMember(m)[0] == QUOTE
  {
    hide Write, EscapeAll;
  }

  lemma MembersSplit(members: seq<Member>)
    requires members != []
    ensures WriteMembers(members)[0] == WriteMember(members[0])
    ensures WriteMembers(members)[1..] == WriteMembers(members[1..])
  {
    hide WriteMember;
  }

  lemma {:induction false} ParseWrittenArray(elements: seq<Doc>, rest: Text)
    requires Stops(rest)
    ensures ParseDoc(Write(DArray(elements)) + rest) == Some(Parsed(DArray(elements), rest))
    decreases elements, 1
  {
    var t := Write(DArray(elements)) + rest;
    if elements == [] {
      assert t == [LBRACKET, RBRACKET] + rest;
      assert t[2..] == rest;
    } else {
      ParseWrittenElements(elements, rest);
      var body := Join(WriteElements(elements)) + [RBRACKET] + rest;
      assert t == [LBRACKET] + body;
      assert t[1..] == body;
      assert t[1] == body[0] != RBRACKET;
      hide Join, WriteElements, ParseElements;
    }
  }

  lemma WriteStarts(d: Doc)
    ensures Write(d) != [] && Write(d)[0] != RBRACKET
  {
    if d.DInt? {
      ParseDigitsWritten(if d.number < 0 then -d.number else d.number, []);
    }
  }

  lemma LastElement(t: Text, d: Doc, rest: Text)
    requires ParseDoc(t) == Some(Parsed(d, [RBRACKET] + rest))
    ensures ParseElements(t) == Some(Parsed([d], rest))
  {
    hide ParseDoc;
    assert ([RBRACKET] + rest)[1..] == rest;
  }

  lemma NextElement(t: Text, d: Doc, next: Text, more: seq<Doc>, rest: Text)
    requires ParseDoc(t) == Some(Parsed(d, [COMMA] + next))
    requires ParseElements(next) == Some(Parsed(more, rest))
    ensures ParseElements(t) == Some(Parsed([d] + more, rest))
  {
    hide ParseDoc;
    assert ([COMMA] + next)[1..] == next;
  }

  lemma {:induction false} ParseWrittenElements(elements: seq<Doc>, rest: Text)
    requires elements != []
    ensures ParseElements(Join(WriteElements(elements)) + [RBRACKET] + rest) == Some(Parsed(elements, rest))
    ensures Join(WriteElements(elements)) != [] && Join(WriteElements(elements))[0] != RBRACKET
    decreases elements, 0
  {
    hide *;
    var d, more := elements[0], elements[1..];
    JoinSplits(WriteElements(elements));
    ElementsSplit(elements);
    WriteStarts(d);
    JoinStarts(WriteElements(elements));
    assert elements == [d] + more;
    if more == [] {
      StopsAt(RBRACKET, rest);
      assert elements == [d];
      ParseWritten(d, [RBRACKET] + rest);
      GlueLast(Write(d), [RBRACKET], rest);
      LastElement(Write(d) + ([RBRACKET] + rest), d, rest);
    } else {
      var joined := Join(WriteElements(more));
      StopsAt(COMMA, joined + [RBRACKET] + rest);
      ParseWrittenElements(more, rest);
      ParseWritten(d, [COMMA] + (joined + [RBRACKET] + rest));
      GlueNext(Write(d), joined, [RBRACKET], rest);
      NextElement(Write(d) + ([COMMA] + (joined + [RBRACKET] + rest)), d, joined + [RBRACKET] + rest, more, rest);
    }
  }

  lemma ElementsSplit(elements: seq<Doc>)
    requires elements != []
    ensures WriteElements(elements)[0] == Write(elements[0])
    ensures WriteElements(elements)[1..] == WriteElements(elements[1..])
  {
    hide Write;
  }

  // ----- Decoding undoes encoding -----

  lemma {:induction false} ForgetArranged(order: KeyOrder, v: Json)
    requires Encodable(v)
    ensures Forget(Arrange(order, v)) == v
    decreases v, 2
  {
    match v
    case JObject(fields) =>
      ForgetArrangedObject(order, v);
    case JArray(items) =>
      ForgetArrangedItems(order, items);
    case _ =>
  }

  lemma {:induction false} ForgetArrangedObject(order: KeyOrder, v: Json)
    requires v.JObject? && Encodable(v)
    ensures Forget(Arrange(order, v)) == v
    decreases v, 1
  {
    var keys := Sorted(order, v.fields.Keys);
    ArrangeObject(order, v);
    ForgetArrangedFields(order, v, keys);
    hide Sorted, Ascending, Arrange, ArrangeFields, ForgetMembers;
    assert (map k | k in keys :: v.fields[k]) == v.fields;
  }

  lemma {:induction false} ForgetArrangedFields(order: KeyOrder, v: Json, keys: seq<Text>)
    requires v.JObject? && Encodable(v) && forall k :: k in keys ==> k in v.fields
    ensures ForgetMembers(ArrangeFields(order, v, keys)) == map k | k in keys :: v.fields[k]
    decreases v, 0, |keys|
  {
    hide Arrange, Forget;
    if keys != [] {
      ForgetArranged(order, v.fields[keys[0]]);
      ForgetArrangedFields(order, v, keys[1..]);
      var members := ArrangeFields(order, v, keys);
      assert members[1..] == ArrangeFields(order, v, keys[1..]);
      assert keys == [keys[0]] + keys[1..];
    }
  }

  lemma {:induction false} ForgetArrangedItems(order: KeyOrder, items: seq<Json>)
    requires forall i :: 0 <= i < |items| ==> Encodable(items[i])
    ensures ForgetElements(ArrangeItems(order, items)) == items
    decreases items, 0
  {
    if items != [] {
      ForgetArranged(order, items[0]);
      ForgetArrangedItems(order, items[1..]);
      var docs := ArrangeItems(order, items);
      assert docs[0] == Arrange(order, items[0]);
      assert docs[1..] == ArrangeItems(order, items[1..]);
      hide Arrange, Forget, Encodable, ArrangeItems;
      assert items == [items[0]] + items[1..];
    }
  }

  /** Decoding the canonical text of any value, in either key order, gives the value back. */
  lemma DecodeEncode(order: KeyOrder, v: Json)
    requires Encodable(v)
    ensures Decode(Encode(order, v)) == Some(v)
  {
    var d := Arrange(order, v);
    ParseWritten(d, []);
    assert Write(d) + [] == Write(d);
    ForgetArranged(order, v);
  }

  /** Different values have different canonical texts. */
  lemma EncodeInjective(order: KeyOrder, v: Json, w: Json)
    requires Encodable(v) && Encodable(w)
    ensures Encode(order, v) == Encode(order, w) <==> v == w
  {
    DecodeEncode(order, v);
    DecodeEncode(order, w);
  }

  lemma WriteInjective(d: Doc, e: Doc)
    ensures Write(d) == Write(e) <==> d == e
  {
    ParseWritten(d, []);
    ParseWritten(e, []);
    assert Write(d) + [] == Write(d) && Write(e) + [] == Write(e);
  }

  /** What is hashed: the domain, a zero, the canonical text. A domain that is empty or has a zero is refused. */
  ghost function Preimage(domain: Text, v: Json): Outcome<Text> {
    if domain == [] || 0 in domain then Err("invalid hash domain")
    else if !Encodable(v) then Err("payload is not canonical JSON")
    else Ok(domain + [0] + Encode(ByPoints, v))
  }

  /** Hash inputs never collide across domains or values. */
  lemma PreimageInjective(domain1: Text, v1: Json, domain2: Text, v2: Json)
    requires Preimage(domain1, v1).Ok? && Preimage(domain1, v1) == Preimage(domain2, v2)
    ensures domain1 == domain2 && v1 == v2
  {
    var t1, t2 := Encode(ByPoints, v1), Encode(ByPoints, v2);
    var p := domain1 + [0] + t1;
    assert p == domain2 + [0] + t2;
    FirstZeroSplits(domain1, t1);
    FirstZeroSplits(domain2, t2);
    hide Encode;
    assert domain1 == p[..|domain1|] == domain2;
    assert t1 == p[|domain1| + 1..] == t2;
    EncodeInjective(ByPoints, v1, v2);
  }

  function FirstZero(t: Text): nat {
    if t == [] || t[0] == 0 then 0 else 1 + FirstZero(t[1..])
  }

  lemma {:induction false} FirstZeroSplits(domain: Text, t: Text)
    requires 0 !in domain
    ensures FirstZero(domain + [0] + t) == |domain|
  {
    if domain == [] {
      assert domain + [0] + t == [0] + t;
    } else {
      assert (domain + [0] + t)[1..] == domain[1..] + [0] + t;
      FirstZeroSplits(domain[1..], t);
    }
  }

  // ----- When the wallet and the server agree -----

  /** Every string is proper Unicode; on others the server's UTF-8 encoding fails. */
  predicate WellFormedTexts(v: Json) {
    match v
    case JObject(fields) => forall k :: k in fields ==> WellFormed(k) && WellFormedTexts(fields[k])
    case JArray(items) => forall i :: 0 <= i < |items| ==> WellFormedTexts(items[i])
    case JString(text) => WellFormed(text)
    case _ => true
  }

  ghost predicate NoneStraddle(keys: set<Text>) {
    forall k, l :: k in keys && l in keys ==> !Straddles(Points(k), Points(l))
  }

  /** No object anywhere in the value has two straddling keys. */
  ghost predicate KeysAgree(v: Json) {
    match v
    case JObject(fields) => NoneStraddle(fields.Keys) && forall k :: k in fields ==> KeysAgree(fields[k])
    case JArray(items) => forall i :: 0 <= i < |items| ==> KeysAgree(items[i])
    case _ => true
  }

  /** What the server computes from a value both sides can encode. */
  ghost function ServerText(v: Json): Outcome<Text>
    requires Encodable(v)
  {
    if WellFormedTexts(v) then Ok(Encode(ByPoints, v)) else Err("payload is not canonical JSON")
  }

  lemma SameSortIff(s: set<Text>)
    requires forall k :: k in s ==> WellFormed(k)
    ensures Sorted(ByUnits, s) == Sorted(ByPoints, s) <==> NoneStraddle(s)
  {
    var units, points := Sorted(ByUnits, s), Sorted(ByPoints, s);
    SortedIsAscending(ByUnits, s);
    SortedIsAscending(ByPoints, s);
    hide Sorted, Less, Straddles, WellFormed, Points;
    if NoneStraddle(s) {
      forall i, j | 0 <= i < j < |units|
        ensures Less(ByPoints, units[i], units[j])
      {
        assert units[i] in s && units[j] in s;
        OrdersAgreeIff(units[i], units[j]);
      }
      AscendingIsUnique(ByPoints, units, points, s);
    }
    if units == points {
      forall k, l | k in s && l in s
        ensures !Straddles(Points(k), Points(l))
      {
        var i :| 0 <= i < |units| && units[i] == k;
        var j :| 0 <= j < |units| && units[j] == l;
        Total(ByUnits, k, l);
        Total(ByPoints, k, l);
        OrdersAgreeIff(k, l);
      }
    }
  }

  lemma {:induction false} SameArrangementIff(v: Json)
    requires Encodable(v) && WellFormedTexts(v)
    ensures Arrange(ByUnits, v) == Arrange(ByPoints, v) <==> KeysAgree(v)
    decreases v
  {
    match v
    case JObject(fields) =>
      SameSortIff(fields.Keys);
      SortedIsAscending(ByUnits, fields.Keys);
      SortedIsAscending(ByPoints, fields.Keys);
      forall k | k in fields
        ensures Arrange(ByUnits, fields[k]) == Arrange(ByPoints, fields[k]) <==> KeysAgree(fields[k])
      {
        SameArrangementIff(fields[k]);
      }
      SameFieldsIff(v);
    case JArray(items) =>
      forall i | 0 <= i < |items|
        ensures Arrange(ByUnits, items[i]) == Arrange(ByPoints, items[i]) <==> KeysAgree(items[i])
      {
        SameArrangementIff(items[i]);
      }
      var a, b := ArrangeItems(ByUnits, items), ArrangeItems(ByPoints, items);
      assert a == b <==> forall i :: 0 <= i < |items| ==> a[i] == b[i];
    case _ =>
  }

  lemma SameFieldsIff(v: Json)
    requires v.JObject? && Encodable(v)
    ensures Arrange(ByUnits, v) == Arrange(ByPoints, v) <==>
            && Sorted(ByUnits, v.fields.Keys) == Sorted(ByPoints, v.fields.Keys)
            && forall k :: k in v.fields ==> Arrange(ByUnits, v.fields[k]) == Arrange(ByPoints, v.fields[k])
  {
    ArrangeObject(ByUnits, v);
    ArrangeObject(ByPoints, v);
    hide Sorted, Arrange, ArrangeFields, Ascending;
    FieldListsIff(v, Sorted(ByUnits, v.fields.Keys), Sorted(ByPoints, v.fields.Keys));
  }

  lemma FieldListsIff(v: Json, units: seq<Text>, points: seq<Text>)
    requires v.JObject? && Encodable(v) && Lists(units, v.fields.Keys) && Lists(points, v.fields.Keys)
    ensures ArrangeFields(ByUnits, v, units) == ArrangeFields(ByPoints, v, points) <==>
            && units == points
            && forall k :: k in v.fields ==> Arrange(ByUnits, v.fields[k]) == Arrange(ByPoints, v.fields[k])
  {
    var a, b := ArrangeFields(ByUnits, v, units), ArrangeFields(ByPoints, v, points);
    hide Arrange, ArrangeFields, Encodable;
    if a == b {
      assert forall i :: 0 <= i < |units| ==> a[i].key == units[i] && b[i].key == points[i];
      assert units == points;
      forall k | k in v.fields
        ensures Arrange(ByUnits, v.fields[k]) == Arrange(ByPoints, v.fields[k])
      {
        assert k in units;
        var i :| 0 <= i < |units| && units[i] == k;
        assert a[i].value == b[i].value;
      }
    }
    if units == points
       && forall k :: k in v.fields ==> Arrange(ByUnits, v.fields[k]) == Arrange(ByPoints, v.fields[k])
    {
      forall i | 0 <= i < |units|
        ensures a[i] == b[i]
      {
        assert units[i] in v.fields.Keys;
      }
      assert a == b;
    }
  }

  /**
   The wallet claims to match the server's encoding. On every value with a canonical form it does
   so exactly when all text is proper Unicode, no object has two straddling keys, and every
   integer fits 64 bits.
   */
  lemma WalletMatchesServerIff(v: Json)
    requires Encodable(v)
    ensures WalletText(v) == ServerText(v) <==> WellFormedTexts(v) && KeysAgree(v) && IntsFit(v)
  {
    if WellFormedTexts(v) {
      SameArrangementIff(v);
      WriteInjective(Arrange(ByUnits, v), Arrange(ByPoints, v));
    }
  }

  /** Keys U+FFFD and U+10000 in one object: the wallet and the server write them in opposite order. */
  lemma WalletCanMismatch()
    ensures var v := JObject(map[[0xFFFD] := JNull, [0xD800, 0xDC00] := JNull]);
            Writable(v) && WellFormedTexts(v) && WalletText(v) != ServerText(v)
  {
    var k: Text, l: Text := [0xFFFD], [0xD800, 0xDC00];
    OrdersDisagree();
    assert Straddles(Points(k), Points(l)) by {
      Total(ByUnits, k, l);
      OrdersAgreeIff(k, l);
    }
    hide *;
    StraddlingPairMismatches(k, l);
  }

  lemma StraddlingPairMismatches(k: Text, l: Text)
    requires WellFormed(k) && WellFormed(l) && Straddles(Points(k), Points(l))
    ensures var v := JObject(map[k := JNull, l := JNull]);
            Writable(v) && WellFormedTexts(v) && WalletText(v) != ServerText(v)
  {
    var v := JObject(map[k := JNull, l := JNull]);
    hide Straddles, Points, WellFormed, WalletText, ServerText;
    assert v.fields.Keys == {k, l};
    assert v.fields[k] == JNull && v.fields[l] == JNull;
    NullFieldsFit(v.fields);
    PairStraddles(v.fields.Keys, k, l);
    assert !KeysAgree(v);
    WalletMatchesServerIff(v);
  }

  lemma NullFieldsFit(fields: map<Text, Json>)
    requires forall k :: k in fields ==> WellFormed(k) && fields[k] == JNull
    ensures Writable(JObject(fields)) && WellFormedTexts(JObject(fields))
  {
    hide WellFormed;
    assert Encodable(JObject(fields)) && IntsFit(JObject(fields));
  }

  lemma PairStraddles(keys: set<Text>, k: Text, l: Text)
    requires k in keys && l in keys && Straddles(Points(k), Points(l))
    ensures !NoneStraddle(keys)
  {
    hide Straddles, Points;
  }

  // ----- The encoder as written: loops over a growing buffer -----

  lemma {:induction false} JoinSnoc(parts: seq<Text>, last: Text)
    ensures Join(parts + [last]) == if parts == [] then last else Join(parts) + [COMMA] + last
  {
    if parts == [] {
      assert parts + [last] == [last];
    } else {
      assert (parts + [last])[1..] == parts[1..] + [last];
      JoinSnoc(parts[1..], last);
    }
  }

  lemma {:induction false} EscapeAllSnoc(t: Text, c: Unit)
    ensures EscapeAll(t + [c]) == EscapeAll(t) + Escape(c)
  {
    hide Escape;
    if t == [] {
      assert t + [c] == [c];
      assert EscapeAll([c]) == Escape(c) + EscapeAll([]);
    } else {
      assert (t + [c])[1..] == t[1..] + [c];
      EscapeAllSnoc(t[1..], c);
    }
  }

  /** One turn of either loop: a comma unless the buffer is still fresh, then the part. */
  lemma AppendPart(open: Text, parts: seq<Text>, part: Text)
    ensures open + Join(parts + [part]) ==
            (if parts == [] then open else open + Join(parts) + [COMMA]) + part
  {
    JoinSnoc(parts, part);
    hide Join;
  }

  method Quote(value: Text) returns (out: Text)
    ensures out == Quoted(value)
  {
    out := [QUOTE];
    for i := 0 to |value|
      invariant out == [QUOTE] + EscapeAll(value[..i])
    {
      hide Escape, EscapeAll;
      EscapeAllSnoc(value[..i], value[i]);
      assert value[..i + 1] == value[..i] + [value[i]];
      out := out + Escape(value[i]);
    }
    assert value[..|value|] == value;
    out := out + [QUOTE];
  }

  /** `Collections.sort` on the collected keys. */
  method SortKeys(keys: set<Text>) returns (sorted: seq<Text>)
    ensures sorted == Sorted(ByUnits, keys)
    ensures Lists(sorted, keys)
  {
    hide Less, Sorted;
    sorted := [];
    var rest := keys;
    while rest != {}
      invariant rest <= keys
      invariant Ascending(ByUnits, sorted) && Lists(sorted, keys - rest)
      decreases rest
    {
      var k :| k in rest;
      sorted := Insert(sorted, k, keys - rest);
      rest := rest - {k};
      assert keys - rest == keys - rest - {k} + {k};
    }
    assert keys - rest == keys;
    SortedIsAscending(ByUnits, keys);
    AscendingIsUnique(ByUnits, sorted, Sorted(ByUnits, keys), keys);
  }

  method Insert(sorted: seq<Text>, k: Text, ghost s: set<Text>) returns (longer: seq<Text>)
    requires Ascending(ByUnits, sorted) && Lists(sorted, s) && k !in s
    ensures Ascending(ByUnits, longer) && Lists(longer, s + {k})
  {
    var i := 0;
    while i < |sorted| && Less(ByUnits, sorted[i], k)
      invariant 0 <= i <= |sorted|
      invariant forall j :: 0 <= j < i ==> Less(ByUnits, sorted[j], k)
    {
      i := i + 1;
    }
    hide Less;
    longer := sorted[..i] + [k] + sorted[i..];
    forall j | i <= j < |sorted|
      ensures Less(ByUnits, k, sorted[j])
    {
      assert sorted[i] in s;
      Total(ByUnits, k, sorted[i]);
      if i < j { Transitive(ByUnits, k, sorted[i], sorted[j]); }
    }
    assert forall o :: o in sorted <==> o in sorted[..i] || o in sorted[i..] by {
      assert sorted == sorted[..i] + sorted[i..];
    }
  }

  method Canonical(input: Json) returns (r: Outcome<Text>)
    ensures r == WalletText(input)
    decreases input, 1
  {
    match input {
      case JObject(_) => r := CanonicalObject(input);
      case JArray(items) => r := CanonicalArray(items);
      case JString(text) =>
        var quoted := Quote(text);
        r := Ok(quoted);
      case JNull => r := Ok(NULL_TEXT);
      case JBool(flag) => r := Ok(if flag then TRUE_TEXT else FALSE_TEXT);
      case JInt(number) =>
        r := if InLong(number) then Ok(Decimal(number)) else Err("unsupported canonical JSON value");
      case JOther => r := Err("unsupported canonical JSON value");
    }
  }

  /** The first fields of an object, each encodable and written. */
  ghost predicate Written(input: Json, keys: seq<Text>, parts: seq<Text>) {
    && input.JObject? && |parts| <= |keys|
    && forall j :: 0 <= j < |parts| ==>
         && keys[j] in input.fields && Writable(input.fields[keys[j]])
         && parts[j] == WriteMember(Member(keys[j], Arrange(ByUnits, input.fields[keys[j]])))
  }

  lemma MemberText(input: Json, keys: seq<Text>, parts: seq<Text>, value: Outcome<Text>)
    requires Written(input, keys, parts) && |parts| < |keys| && keys[|parts|] in input.fields
    requires value == WalletText(input.fields[keys[|parts|]])
    ensures value.Err? ==> WalletText(input) == value
    ensures value.Ok? ==> Written(input, keys, parts + [Quoted(keys[|parts|]) + [COLON] + value.value])
  {
    hide Write, Quoted, Arrange;
  }

  lemma ObjectText(input: Json, keys: seq<Text>, parts: seq<Text>)
    requires input.JObject? && keys == Sorted(ByUnits, input.fields.Keys)
    requires |parts| == |keys| && Written(input, keys, parts)
    ensures WalletText(input) == Ok([LBRACE] + Join(parts) + [RBRACE])
  {
    SortedIsAscending(ByUnits, input.fields.Keys);
    assert Writable(input) by {
      forall k | k in input.fields
        ensures Writable(input.fields[k])
      {
        assert k in keys;
        var j :| 0 <= j < |keys| && keys[j] == k;
      }
    }
    ArrangeObject(ByUnits, input);
    hide Sorted, Join, WriteMember, Ascending, Arrange, Encodable, IntsFit;
    assert parts == WriteMembers(ArrangeFields(ByUnits, input, keys));
    hide WriteMembers, ArrangeFields;
  }

  /** Appends to the object's buffer: a comma unless it only holds the brace, then the part. */
  method AppendTo(buffer: Text, part: Text, ghost open: Text, ghost parts: seq<Text>) returns (out: Text)
    requires |open| == 1 && buffer == open + Join(parts) && (|buffer| > 1 <==> parts != []) && part != []
    ensures out == open + Join(parts + [part]) && |out| > 1
  {
    AppendPart(open, parts, part);
    out := buffer;
    if |out| > 1 { out := out + [COMMA]; }
    out := out + part;
  }

  method CanonicalObject(input: Json) returns (r: Outcome<Text>)
    requires input.JObject?
    ensures r == WalletText(input)
    decreases input, 0
  {
    var keys := SortKeys(input.fields.Keys);
    assert forall k :: k in keys ==> k in input.fields;
    var out: Text := [LBRACE];
    ghost var parts: seq<Text> := [];
    assert Join(parts) == [] && Written(input, keys, parts);
    hide *;
    for i := 0 to |keys|
      invariant |parts| == i && Written(input, keys, parts)
      invariant out == [LBRACE] + Join(parts) && (|out| > 1 <==> parts != [])
    {
      var value := Canonical(input.fields[keys[i]]);
      MemberText(input, keys, parts, value);
      if value.Err? { return value; }
      var key := Quote(keys[i]);
      var part := key + [COLON] + value.value;
      out := AppendTo(out, part, [LBRACE], parts);
      parts := parts + [part];
    }
    ObjectText(input, keys, parts);
    r := Ok(out + [RBRACE]);
  }

  /** The first items of an array, each encodable and written. */
  ghost predicate WrittenItems(items: seq<Json>, parts: seq<Text>) {
    && |parts| <= |items|
    && forall i :: 0 <= i < |parts| ==> Writable(items[i]) && parts[i] == Write(Arrange(ByUnits, items[i]))
  }

  lemma ItemText(items: seq<Json>, parts: seq<Text>, value: Outcome<Text>)
    requires WrittenItems(items, parts) && |parts| < |items| && value == WalletText(items[|parts|])
    ensures value.Err? ==> WalletText(JArray(items)) == value
    ensures value.Ok? ==> WrittenItems(items, parts + [value.value])
  {
    hide Write, Arrange;
  }

  lemma ArrayText(items: seq<Json>, parts: seq<Text>)
    requires WrittenItems(items, parts) && |parts| == |items|
    ensures WalletText(JArray(items)) == Ok([LBRACKET] + Join(parts) + [RBRACKET])
  {
    assert Writable(JArray(items));
    var docs := ArrangeItems(ByUnits, items);
    assert Arrange(ByUnits, JArray(items)) == DArray(docs);
    hide Arrange, Join, ArrangeItems;
    assert WriteElements(docs) == parts;
    hide WriteElements;
  }

  method CanonicalArray(items: seq<Json>) returns (r: Outcome<Text>)
    ensures r == WalletText(JArray(items))
    decreases items, 0
  {
    var out: Text := [LBRACKET];
    ghost var parts: seq<Text> := [];
    assert Join(parts) == [] && WrittenItems(items, parts);
    hide *;
    for i := 0 to |items|
      invariant |parts| == i && WrittenItems(items, parts)
      invariant out == [LBRACKET] + Join(parts)
    {
      if i > 0 { out := out + [COMMA]; }
      var value := Canonical(items[i]);
      ItemText(items, parts, value);
      if value.Err? { return value; }
      out := out + value.value;
      AppendPart([LBRACKET], parts, value.value);
      parts := parts + [value.value];
    }
    ArrayText(items, parts);
    r := Ok(out + [RBRACKET]);
  }

  // ----- Hexadecimal -----

  /** A signed Java byte. */
  type Byte = b: int | -128 <= b < 128

  /** `b & 0xff`. */
  function Unsigned(b: Byte): int {
    var n: int := b;
    n % 256
  }

  const HEX_DIGITS: Text := [48, 49, 50, 51, 52, 53, 54, 55, 56, 57, 97, 98, 99, 100, 101, 102]

  function HexOf(bytes: seq<Byte>): Text {
    if bytes == [] then []
    else [HexDigit(Unsigned(bytes[0]) / 16), HexDigit(Unsigned(bytes[0]) % 16)] + HexOf(bytes[1..])
  }

  function Unhex(t: Text): Option<seq<Byte>> {
    if t == [] then Some([])
    else if |t| == 1 || HexValue(t[0]) == None || HexValue(t[1]) == None then None
    else
      var b := HexValue(t[0]).value * 16 + HexValue(t[1]).value;
      var tail := Unhex(t[2..]);
      if tail == None then None else Some([if b < 128 then b else b - 256] + tail.value)
  }

  /** The digest's hexadecimal form determines its bytes. */
  lemma {:induction false} UnhexHex(bytes: seq<Byte>)
    ensures Unhex(HexOf(bytes)) == Some(bytes)
  {
    if bytes != [] {
      UnhexHex(bytes[1..]);
      assert HexOf(bytes)[2..] == HexOf(bytes[1..]);
      assert bytes == [bytes[0]] + bytes[1..];
    }
  }

  lemma {:induction false} HexSnoc(bytes: seq<Byte>, b: Byte)
    ensures HexOf(bytes + [b]) == HexOf(bytes) + [HexDigit(Unsigned(b) / 16), HexDigit(Unsigned(b) % 16)]
  {
    hide HexDigit, Unsigned;
    if bytes == [] {
      assert (bytes + [b])[1..] == [];
    } else {
      assert (bytes + [b])[1..] == bytes[1..] + [b];
      HexSnoc(bytes[1..], b);
    }
  }

  method Hex(bytes: seq<Byte>) returns (text: Text)
    ensures text == HexOf(bytes)
  {
    var result := new Unit[|bytes| * 2];
    assert forall n :: 0 <= n < 16 ==> HEX_DIGITS[n] == HexDigit(n);
    for i := 0 to |bytes|
      invariant result[..2 * i] == HexOf(bytes[..i])
    {
      hide HexOf, HexDigit, HEX_DIGITS;
      HexSnoc(bytes[..i], bytes[i]);
      assert bytes[..i + 1] == bytes[..i] + [bytes[i]];
      result[i * 2] := HEX_DIGITS[Unsigned(bytes[i]) / 16];
      result[i * 2 + 1] := HEX_DIGITS[Unsigned(bytes[i]) % 16];
      assert result[..2 * (i + 1)] == result[..2 * i] + [result[2 * i], result[2 * i + 1]];
    }
    text := result[..];
    assert text == result[..2 * |bytes|] && bytes[..|bytes|] == bytes;
  }
}
