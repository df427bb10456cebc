/** One document written out in full, which fixes the text format itself. */
module CanonicalSample {
  import opened Common
  import opened Utf16
  import opened CanonicalJson

  const A: Text := [97]
  const B: Text := [98]

  /** `x`, a quote, a backslash, a line feed, the control character 1, a slash, and an e with acute accent. */
  const MIXED: Text := [120, 34, 92, 10, 1, 47, 233]
  const NUMBER := JInt(-120)
  const LIST := JArray([NUMBER, JBool(true), JBool(false), JNull])
  const SAMPLE := JObject(map[B := LIST, A := JString(MIXED)])

  /** How each unit is written: the short escapes, all other control characters, and everything else as it is. */
  lemma EscapeIs(c: Unit)
    ensures Escape(c) ==
            if c == 34 then [92, 34] else if c == 92 then [92, 92]
            else if c == 8 then [92, 98] else if c == 9 then [92, 116] else if c == 10 then [92, 110]
            else if c == 12 then [92, 102] else if c == 13 then [92, 114]
            else if c <= 31 then [92, 117, 48, 48, 48 + c / 16,
                                  if c % 16 <= 9 then 48 + c % 16 else 97 + c % 16 - 10]
            else [c]
  {
  }

  lemma KeysSorted(order: KeyOrder)
    ensures Sorted(order, {A, B}) == [A, B]
  {
    SortedIsAscending(order, {A, B});
    assert Less(order, A, B);
    assert Ascending(order, [A, B]);
    hide Less, Sorted;
    AscendingIsUnique(order, Sorted(order, {A, B}), [A, B], {A, B});
  }

  lemma Peel(c: Unit, rest: Text)
    ensures EscapeAll([c] + rest) == Escape(c) + EscapeAll(rest)
  {
    assert ([c] + rest)[1..] == rest;
  }

  lemma MixedTail()
    ensures EscapeAll([10, 1, 47, 233]) == [92, 110, 92, 117, 48, 48, 48, 49, 47, 233]
  {
    assert EscapeAll([]) == [];
    hide EscapeAll;
    Peel(233, []);
    Peel(47, [233]);
    assert [233] + [] == [233] && [47] + [233] == [47, 233];
    assert EscapeAll([47, 233]) == [47, 233];
    Peel(1, [47, 233]);
    assert [1] + [47, 233] == [1, 47, 233];
    assert EscapeAll([1, 47, 233]) == [92, 117, 48, 48, 48, 49, 47, 233];
    Peel(10, [1, 47, 233]);
    assert [10] + [1, 47, 233] == [10, 1, 47, 233];
  }

  /** `"x\"\\\n\u0001/é"` */
  lemma MixedText()
    ensures Quoted(MIXED) == [34, 120, 92, 34, 92, 92, 92, 110, 92, 117, 48, 48, 48, 49, 47, 233, 34]
  {
    hide EscapeAll;
    MixedTail();
    var tail: Text := [10, 1, 47, 233];
    Peel(92, tail);
    Peel(34, [92] + tail);
    Peel(120, [34] + ([92] + tail));
    assert [120] + ([34] + ([92] + tail)) == MIXED;
  }

  lemma NumberText()
    ensures Decimal(-120) == [45, 49, 50, 48]
  {
    assert Digits(1) == [49] && Digits(12) == [49, 50];
  }

  /** `[-120,true,false,null]` */
  lemma ListText()
    ensures Write(DArray([DInt(-120), DBool(true), DBool(false), DNull])) ==
            [91, 45, 49, 50, 48, 44, 116, 114, 117, 101, 44, 102, 97, 108, 115, 101, 44, 110, 117, 108, 108, 93]
  {
    NumberText();
    hide Decimal;
    var parts := WriteElements([DInt(-120), DBool(true), DBool(false), DNull]);
    assert parts == [[45, 49, 50, 48], TRUE_TEXT, FALSE_TEXT, NULL_TEXT];
    hide WriteElements, Join;
    JoinFour([45, 49, 50, 48], TRUE_TEXT, FALSE_TEXT, NULL_TEXT);
  }

  lemma JoinFour(a: Text, b: Text, c: Text, d: Text)
    ensures Join([a, b, c, d]) == a + [44] + (b + [44] + (c + [44] + d))
  {
    assert [a, b, c, d][1..] == [b, c, d] && [b, c, d][1..] == [c, d] && [c, d][1..] == [d];
    assert Join([d]) == d && Join([c, d]) == c + [44] + d;
    assert Join([b, c, d]) == b + [44] + Join([c, d]);
  }

  lemma SampleFields(order: KeyOrder)
    ensures Encodable(SAMPLE) && SAMPLE.fields.Keys == {A, B}
    ensures Arrange(order, SAMPLE.fields[A]) == DString(MIXED)
    ensures Arrange(order, SAMPLE.fields[B]) == DArray([DInt(-120), DBool(true), DBool(false), DNull])
  {
    assert SAMPLE.fields[A] == JString(MIXED) && SAMPLE.fields[B] == LIST;
    var docs := ArrangeItems(order, LIST.items);
    assert docs == [DInt(-120), DBool(true), DBool(false), DNull];
  }

  lemma SampleDocument(order: KeyOrder)
    ensures Encodable(SAMPLE)
    ensures Arrange(order, SAMPLE) ==
            DObject([Member(A, DString(MIXED)),
                     Member(B, DArray([DInt(-120), DBool(true), DBool(false), DNull]))])
  {
    SampleFields(order);
    KeysSorted(order);
    ArrangeObject(order, SAMPLE);
    hide Arrange, Sorted, Encodable, Ascending;
    var members := ArrangeFields(order, SAMPLE, [A, B]);
    assert members[0] == Member(A, DString(MIXED));
    hide ArrangeFields;
  }

  /** In either order: `{"a":"x\"\\\n\u0001/é","b":[-120,true,false,null]}`, with no space anywhere. */
  lemma SampleText(order: KeyOrder)
    ensures Encodable(SAMPLE)
    ensures Encode(order, SAMPLE) ==
            [123, 34, 97, 34, 58]
            + [34, 120, 92, 34, 92, 92, 92, 110, 92, 117, 48, 48, 48, 49, 47, 233, 34]
            + [44, 34, 98, 34, 58]
            + [91, 45, 49, 50, 48, 44, 116, 114, 117, 101, 44, 102, 97, 108, 115, 101, 44, 110, 117, 108, 108, 93]
            + [125]
  {
    SampleDocument(order);
    MixedText();
    ListText();
    KeyTexts();
    var first := Member(A, DString(MIXED));
    var second := Member(B, DArray([DInt(-120), DBool(true), DBool(false), DNull]));
    ObjectOfTwo(first, second);
    hide Arrange, Quoted, Write;
    assert [123] + [34, 97, 34] + [58] == [123, 34, 97, 34, 58] && [44] + [34, 98, 34] + [58] == [44, 34, 98, 34, 58];
    assert Write(first.value) == Quoted(MIXED) by { StringText(MIXED); }
  }

  lemma StringText(t: Text)
    ensures Write(DString(t)) == Quoted(t)
  {
  }

  lemma KeyTexts()
    ensures Quoted(A) == [34, 97, 34] && Quoted(B) == [34, 98, 34]
  {
    assert A[1..] == [] && B[1..] == [];
  }

  lemma Regroup(q1: Text, w1: Text, q2: Text, w2: Text)
    ensures [123] + ((q1 + [58] + w1) + [44] + (q2 + [58] + w2)) + [125]
         == ([123] + q1 + [58]) + w1 + ([44] + q2 + [58]) + w2 + [125]
  {
  }

  lemma ObjectOfTwo(first: Member, second: Member)
    ensures Write(DObject([first, second])) ==
            ([123] + Quoted(first.key) + [58]) + Write(first.value)
            + ([44] + Quoted(second.key) + [58]) + Write(second.value) + [125]
  {
    var parts := WriteMembers([first, second]);
    assert parts == [WriteMember(first), WriteMember(second)];
    assert parts[1..] == [WriteMember(second)];
    assert Join(parts) == WriteMember(first) + [44] + WriteMember(second);
    hide Quoted, Join, WriteMembers;
    Regroup(Quoted(first.key), Write(first.value), Quoted(second.key), Write(second.value));
  }
}
