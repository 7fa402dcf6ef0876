/**
 * The few pieces of Python's string behaviour that the extension module relies on:
 * `str()` of the values stored in a substitution dict, `%`-formatting of a template
 * against such a dict, `str.replace` of one character by another and `str.join`.
 */
module PyText {
  import opened Wrappers

  /** A value stored in a substitution dict: a Python `int`, a `str`, or `None`. */
  datatype Value = Int(i: int) | Str(s: string) | NoneValue

  /** A substitution dict: key to value. */
  type Subs = map<string, Value>

  // ---------------------------------------------------------------- str(int)

  predicate AllDigits(s: string) {
    forall i :: 0 <= i < |s| ==> '0' <= s[i] <= '9'
  }

  function DigitChar(d: nat): (c: char)
    requires d < 10
    ensures '0' <= c <= '9' && c as int - '0' as int == d
  {
    ('0' as int + d) as char
  }

  /** Decimal digits of a natural number, most significant first, no leading zero. */
  function NatDigits(n: nat): (s: string)
    ensures |s| > 0 && AllDigits(s)
    ensures (s[0] == '0') == (n == 0)
    decreases n
  {
    if n < 10 then [DigitChar(n)] else NatDigits(n / 10) + [DigitChar(n % 10)]
  }

  /** The number a string of decimal digits denotes. */
  function DigitsValue(s: string): nat
    requires AllDigits(s)
    decreases |s|
  {
    if s == [] then 0 else DigitsValue(s[..|s| - 1]) * 10 + (s[|s| - 1] as int - '0' as int)
  }

  /** Reading back the digits of `n` gives `n`. */
  lemma {:induction false} DigitsRoundTrip(n: nat)
    ensures DigitsValue(NatDigits(n)) == n
  {
    if n >= 10 {
      var s := NatDigits(n);
      assert s[..|s| - 1] == NatDigits(n / 10);
      DigitsRoundTrip(n / 10);
    }
  }

  /** What `%s` (Python's `str()`) prints for a value. */
  function Render(v: Value): (s: string)
    ensures v.Str? ==> s == v.s
    ensures v.NoneValue? ==> s == "None"
    ensures v.Int? && v.i >= 0 ==>
      |s| > 0 && AllDigits(s) && DigitsValue(s) == v.i && (s[0] == '0' ==> |s| == 1)
    ensures v.Int? && v.i < 0 ==>
      |s| > 1 && s[0] == '-' && s[1] != '0' && AllDigits(s[1..]) && DigitsValue(s[1..]) == -v.i
  {
    match v
    case Int(i) =>
      if i < 0 then
        DigitsRoundTrip(-i);
        var s := "-" + NatDigits(-i);
        assert s[1..] == NatDigits(-i);
        s
      else
        DigitsRoundTrip(i);
        NatDigits(i)
    case Str(s) => s
    case NoneValue => "None"
  }

  // ------------------------------------------------------ template % dict

  /**
   * A `%`-template split into literal text and `%(key)s` conversions, in the order
   * they appear in the template.
   */
  datatype Piece = Text(text: string) | Field(key: string)

  /** A piece can be rendered against `subs`: it is text, or its key is present. */
  predicate Bound(p: Piece, subs: Subs) {
    p.Field? ==> p.key in subs
  }

  function RenderPiece(p: Piece, subs: Subs): string
    requires Bound(p, subs)
  {
    match p
    case Text(t) => t
    case Field(k) => Render(subs[k])
  }

  /** `k` is the key of the leftmost conversion whose key `subs` lacks. */
  ghost predicate FirstUnbound(t: seq<Piece>, subs: Subs, k: string) {
    exists i :: 0 <= i < |t| && t[i] == Field(k) && forall j :: 0 <= j < i ==> Bound(t[j], subs)
  }

  /**
   * `template % subs`: every conversion is replaced by the rendered value of its key;
   * the first conversion (left to right) whose key is missing raises KeyError(key).
   */
  function Format(t: seq<Piece>, subs: Subs): (r: Result<string, string>)
    ensures r.Success? <==> forall i :: 0 <= i < |t| ==> Bound(t[i], subs)
    ensures r.Failure? ==> r.error !in subs && FirstUnbound(t, subs, r.error)
  {
    if t == [] then Success("")
    else if !Bound(t[0], subs) then Failure(t[0].key)
    else
      match Format(t[1..], subs)
      case Success(rest) => Success(RenderPiece(t[0], subs) + rest)
      case Failure(k) =>
        ghost var i :| 0 <= i < |t[1..]| && t[1..][i] == Field(k) && forall j :: 0 <= j < i ==> Bound(t[1..][j], subs);
        assert t[i + 1] == Field(k);
        Failure(k)
  }

  /** A template of one piece formats to that piece. */
  lemma {:induction false} FormatOne(p: Piece, subs: Subs)
    requires Bound(p, subs)
    ensures Format([p], subs) == Success(RenderPiece(p, subs))
  {
    assert [p][1..] == [];
    assert RenderPiece(p, subs) + "" == RenderPiece(p, subs);
  }

  /** Formatting a template renders its first piece and then the rest. */
  lemma {:induction false} FormatCons(p: Piece, rest: seq<Piece>, subs: Subs)
    requires Bound(p, subs) && Format(rest, subs).Success?
    ensures Format([p] + rest, subs) == Success(RenderPiece(p, subs) + Format(rest, subs).value)
  {
  }

  /** String concatenation is associative. */
  lemma ConcatAssoc(a: string, b: string, c: string)
    ensures a + (b + c) == a + b + c
  {
  }

  /** A conversion after literal text. */
  lemma {:induction false} FormatTextField(a: string, k: string, subs: Subs)
    requires k in subs
    ensures Format([Text(a), Field(k)], subs) == Success(a + Render(subs[k]))
  {
    FormatOne(Field(k), subs);
    FormatCons(Text(a), [Field(k)], subs);
    assert [Text(a)] + [Field(k)] == [Text(a), Field(k)];
  }

  /** A conversion between two literal texts. */
  lemma {:induction false} FormatThree(a: string, k: string, b: string, subs: Subs)
    requires k in subs
    ensures Format([Text(a), Field(k), Text(b)], subs) == Success(a + Render(subs[k]) + b)
  {
    var w := [Text(a), Field(k), Text(b)];
    FormatOne(w[2], subs);
    FormatCons(w[1], w[2..], subs);
    FormatCons(w[0], w[1..], subs);
    assert [w[0]] + w[1..] == w;
    assert a + (Render(subs[k]) + b) == a + Render(subs[k]) + b;
  }

  /** Two conversions, each between literal texts. */
  lemma {:induction false} FormatFive(a: string, k1: string, b: string, k2: string, c: string, subs: Subs)
    requires k1 in subs && k2 in subs
    ensures Format([Text(a), Field(k1), Text(b), Field(k2), Text(c)], subs)
      == Success(a + Render(subs[k1]) + b + Render(subs[k2]) + c)
  {
    var w := [Text(a), Field(k1), Text(b), Field(k2), Text(c)];
    var x, y := Render(subs[k1]), Render(subs[k2]);
    FormatThree(b, k2, c, subs);
    assert w[2..] == [Text(b), Field(k2), Text(c)];
    FormatCons(w[1], w[2..], subs);
    FormatCons(w[0], w[1..], subs);
    assert [w[0]] + w[1..] == w;
    assert [w[1]] + w[2..] == w[1..];
    assert a + (x + (b + y + c)) == a + x + b + y + c;
  }

  /** Formatting a concatenated template concatenates the formatted parts. */
  lemma {:induction false} FormatAppend(a: seq<Piece>, b: seq<Piece>, subs: Subs)
    requires Format(a, subs).Success? && Format(b, subs).Success?
    ensures Format(a + b, subs) == Success(Format(a, subs).value + Format(b, subs).value)
  {
    if a == [] {
      assert a + b == b;
      assert Format(a, subs).value == "";
      assert "" + Format(b, subs).value == Format(b, subs).value;
    } else {
      assert Bound(a[0], subs) && Format(a[1..], subs).Success?;
      var h, x, y := RenderPiece(a[0], subs), Format(a[1..], subs).value, Format(b, subs).value;
      assert Format(a, subs) == Success(h + x) by {
        FormatUnfold(a, subs);
      }
      assert Format(a + b, subs) == Success(h + (x + y)) by {
        assert (a + b)[1..] == a[1..] + b;
        assert (a + b)[0] == a[0];
        FormatAppend(a[1..], b, subs);
        FormatUnfold(a + b, subs);
      }
      ConcatAssoc(h, x, y);
    }
  }

  /** One step of `Format` on a template whose first piece is bound. */
  lemma {:induction false} FormatUnfold(t: seq<Piece>, subs: Subs)
    requires t != [] && Bound(t[0], subs) && Format(t[1..], subs).Success?
    ensures Format(t, subs) == Success(RenderPiece(t[0], subs) + Format(t[1..], subs).value)
  {
  }

  // --------------------------------------------------- str.replace, substrings

  /** `s.replace(from, to)` for one-character `from` and `to`. */
  function ReplaceChar(s: string, from: char, to: char): (r: string)
    ensures |r| == |s|
    ensures forall i :: 0 <= i < |s| ==> r[i] == (if s[i] == from then to else s[i])
  {
    if s == [] then [] else ReplaceChar(s[..|s| - 1], from, to) + [if s[|s| - 1] == from then to else s[|s| - 1]]
  }

  /** `part` occurs in `s` starting at index `i`. */
  predicate OccursAt(s: string, part: string, i: int) {
    0 <= i && i + |part| <= |s| && s[i..i + |part|] == part
  }

  /** `part in s`, Python's substring test. */
  predicate Contains(s: string, part: string) {
    exists i | 0 <= i <= |s| :: OccursAt(s, part, i)
  }

  lemma {:induction false} ContainsInLeft(x: string, y: string, part: string)
    requires Contains(x, part)
    ensures Contains(x + y, part)
  {
    var i :| 0 <= i <= |x| && OccursAt(x, part, i);
    assert x[i..i + |part|] == part;
    assert (x + y)[i..i + |part|] == x[i..i + |part|];
    assert OccursAt(x + y, part, i);
  }

  lemma {:induction false} ContainsInRight(x: string, y: string, part: string)
    requires Contains(y, part)
    ensures Contains(x + y, part)
  {
    var i :| 0 <= i <= |y| && OccursAt(y, part, i);
    assert y[i..i + |part|] == part;
    assert (x + y)[|x| + i..|x| + i + |part|] == y[i..i + |part|];
    assert OccursAt(x + y, part, |x| + i);
  }

  lemma {:induction false} ContainsWhole(s: string)
    ensures Contains(s, s)
  {
    assert OccursAt(s, s, 0);
  }
  /** A string occurs at the end of any string it ends. */
  lemma {:induction false} ContainsAtEnd(x: string, part: string)
    ensures Contains(x + part, part)
  {
    ContainsWhole(part);
    ContainsInRight(x, part, part);
  }


  // ----------------------------------------------------------------- str.join

  /** The summed lengths of the parts. */
  function TotalLength(parts: seq<string>): nat {
    if parts == [] then 0 else |parts[0]| + TotalLength(parts[1..])
  }

  /** `sep.join(parts)`. */
  function Join(sep: string, parts: seq<string>): (r: string)
    ensures |parts| == 1 ==> r == parts[0]
    ensures |r| == TotalLength(parts) + (if parts == [] then 0 else (|parts| - 1) * |sep|)
  {
    if |parts| == 0 then "" else if |parts| == 1 then parts[0] else parts[0] + sep + Join(sep, parts[1..])
  }

  /** Every part preceded by the separator: `sep + p0 + sep + p1 + ...`. */
  function Prefixed(sep: string, parts: seq<string>): string {
    if parts == [] then "" else sep + parts[0] + Prefixed(sep, parts[1..])
  }

  /** Joining a list that starts with `x` is `x` followed by every other part, each preceded by `sep`. */
  lemma {:induction false} JoinFirst(sep: string, x: string, parts: seq<string>)
    ensures Join(sep, [x] + parts) == x + Prefixed(sep, parts)
    decreases |parts|
  {
    if parts != [] {
      assert ([x] + parts)[1..] == [parts[0]] + parts[1..];
      JoinFirst(sep, parts[0], parts[1..]);
    }
  }
}
