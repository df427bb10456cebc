/** UTF-16 text and the two key orders: by code unit (Java) and by code point (Python). */
module Utf16 {
  type Unit = u: int | 0 <= u < 0x1_0000
  type Text = seq<Unit>

  datatype KeyOrder = ByUnits | ByPoints

  predicate Lex(a: seq<int>, b: seq<int>) {
    if b == [] then false
    else if a == [] then true
    else a[0] < b[0] || (a[0] == b[0] && Lex(a[1..], b[1..]))
  }

  predicate High(u: int) {
    0xD800 <= u < 0xDC00
  }

  predicate Low(u: int) {
    0xDC00 <= u < 0xE000
  }

  predicate Paired(t: Text) {
    |t| >= 2 && High(t[0]) && Low(t[1])
  }

  function Combine(high: int, low: int): int {
    0x1_0000 + (high - 0xD800) * 0x400 + (low - 0xDC00)
  }

  /** A pair stands for one supplementary code point, from which both halves can be read back. */
  lemma CombineIs(high: int, low: int)
    requires High(high) && Low(low)
    ensures 0x1_0000 <= Combine(high, low) <= 0x10_FFFF
    ensures high == 0xD800 + (Combine(high, low) - 0x1_0000) / 0x400
    ensures low == 0xDC00 + (Combine(high, low) - 0x1_0000) % 0x400
  {
  }

  /** The code points of a text; a surrogate without its partner stands for itself. */
  function Points(t: Text): seq<int> {
    if t == [] then []
    else if Paired(t) then [Combine(t[0], t[1])] + Points(t[2..])
    else [t[0]] + Points(t[1..])
  }

  /** Every surrogate has its partner, so the text has a UTF-8 encoding. */
  predicate WellFormed(t: Text) {
    if t == [] then true
    else if Paired(t) then WellFormed(t[2..])
    else !High(t[0]) && !Low(t[0]) && WellFormed(t[1..])
  }

  /** Java compares strings unit by unit, Python point by point. */
  predicate Less(order: KeyOrder, a: Text, b: Text) {
    if order == ByUnits then Lex(a, b) else Lex(Points(a), Points(b))
  }

  /** Where the texts first differ, one has a supplementary point, the other one in U+E000..U+FFFF. */
  predicate Straddles(p: seq<int>, q: seq<int>) {
    if p == [] || q == [] then false
    else if p[0] == q[0] then Straddles(p[1..], q[1..])
    else (p[0] >= 0x1_0000 && 0xE000 <= q[0] < 0x1_0000) || (q[0] >= 0x1_0000 && 0xE000 <= p[0] < 0x1_0000)
  }

  lemma {:induction false} LexTotal(a: seq<int>, b: seq<int>)
    ensures !(Lex(a, b) && Lex(b, a))
    ensures Lex(a, b) || Lex(b, a) || a == b
  {
    if a == [] || b == [] {
    } else {
      LexTotal(a[1..], b[1..]);
      assert a == [a[0]] + a[1..] && b == [b[0]] + b[1..];
    }
  }

  lemma {:induction false} LexTransitive(a: seq<int>, b: seq<int>, c: seq<int>)
    requires Lex(a, b) && Lex(b, c)
    ensures Lex(a, c)
  {
    if a == [] {
    } else if a[0] == b[0] == c[0] {
      LexTransitive(a[1..], b[1..], c[1..]);
    }
  }

  lemma {:induction false} PointsInjective(a: Text, b: Text)
    requires Points(a) == Points(b)
    ensures a == b
  {
    if a == [] || b == [] {
    } else {
      var m, n := if Paired(a) then 2 else 1, if Paired(b) then 2 else 1;
      assert Points(a)[0] == Points(b)[0];
      assert Points(a)[1..] == Points(a[m..]) && Points(b)[1..] == Points(b[n..]);
      PointsInjective(a[m..], b[n..]);
      assert m == n && a[..m] == b[..n] by { FirstPoint(a, b); }
      assert a == a[..m] + a[m..] && b == b[..n] + b[n..];
    }
  }

  lemma FirstPoint(a: Text, b: Text)
    requires a != [] && b != [] && Points(a)[0] == Points(b)[0]
    ensures Paired(a) == Paired(b) && a[0] == b[0]
    ensures Paired(a) ==> a[1] == b[1]
  {
  }

  lemma Total(order: KeyOrder, a: Text, b: Text)
    ensures !(Less(order, a, b) && Less(order, b, a))
    ensures Less(order, a, b) || Less(order, b, a) || a == b
  {
    LexTotal(a, b);
    LexTotal(Points(a), Points(b));
    if Points(a) == Points(b) {
      PointsInjective(a, b);
    }
  }

  lemma Transitive(order: KeyOrder, a: Text, b: Text, c: Text)
    requires Less(order, a, b) && Less(order, b, c)
    ensures Less(order, a, c)
  {
    if order == ByUnits {
      LexTransitive(a, b, c);
    } else {
      LexTransitive(Points(a), Points(b), Points(c));
    }
  }

  /** The two orders agree on a pair of well-formed texts exactly when the pair does not straddle. */
  lemma {:induction false} OrdersAgreeIff(a: Text, b: Text)
    requires WellFormed(a) && WellFormed(b)
    ensures (Less(ByUnits, a, b) == Less(ByPoints, a, b)) <==> !Straddles(Points(a), Points(b))
  {
    if a == [] || b == [] {
    } else {
      var m, n := if Paired(a) then 2 else 1, if Paired(b) then 2 else 1;
      assert Points(a)[1..] == Points(a[m..]) && Points(b)[1..] == Points(b[n..]);
      if Points(a)[0] == Points(b)[0] {
        FirstPoint(a, b);
        OrdersAgreeIff(a[m..], b[n..]);
        if m == 2 {
          assert a[1..][1..] == a[2..] && b[1..][1..] == b[2..];
          assert Lex(a, b) == Lex(a[1..], b[1..]) == Lex(a[2..], b[2..]);
        }
      } else {
        FirstDifference(a, b);
      }
    }
  }

  lemma FirstDifference(a: Text, b: Text)
    requires WellFormed(a) && WellFormed(b) && a != [] && b != []
    requires Points(a)[0] != Points(b)[0]
    ensures (Lex(a, b) == Lex(Points(a), Points(b))) <==> !Straddles(Points(a), Points(b))
  {
    if Paired(a) && Paired(b) {
      if a[0] == b[0] {
        assert a[1..][0] == a[1] && b[1..][0] == b[1];
      }
    }
  }

  /** U+FFFD sorts before U+10000 by code point and after it by code unit. */
  lemma OrdersDisagree()
    ensures WellFormed([0xFFFD]) && WellFormed([0xD800, 0xDC00])
    ensures Less(ByPoints, [0xFFFD], [0xD800, 0xDC00]) && Less(ByUnits, [0xD800, 0xDC00], [0xFFFD])
  {
    var a: Text, b: Text := [0xFFFD], [0xD800, 0xDC00];
    assert a[1..] == [] && b[2..] == [];
    assert Points(a) == [0xFFFD] && Points(b) == [0x1_0000];
  }
}
