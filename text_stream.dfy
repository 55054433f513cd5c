/**
 * Reading a line the way the record reader and the series-name formatter
 * do: `std::getline(stream, token, delimiter)` on a `std::istringstream`,
 * then `std::istringstream{token} >> value` for an `int` field.
 */
module TextStream {
  import opened Wrappers
  import opened Paths

  /**
   * An input string stream as getline sees it: `Good(text, pos)` while no
   * read has reached the end, `Exhausted` once one has (eofbit or failbit
   * set), after which every read yields the empty string.
   */
  datatype Stream = Good(text: string, pos: nat) | Exhausted

  /** The first `d` in `s` at or after `from`. */
  function NextDelim(s: string, from: nat, d: char): (r: Option<nat>)
    ensures r.Some? ==> from <= r.value < |s| && s[r.value] == d
    ensures r.Some? ==> forall k :: from <= k < r.value ==> s[k] != d
    ensures r.None? ==> forall k :: from <= k < |s| ==> s[k] != d
    decreases |s| - from
  {
    if from >= |s| then None
    else if s[from] == d then Some(from)
    else NextDelim(s, from + 1, d)
  }

  /** std::getline(stream, token, d): up to the next `d`, which is consumed. */
  function GetToken(s: Stream, d: char): (string, Stream)
  {
    if s.Exhausted? || s.pos > |s.text| then ("", Exhausted)
    else
      var j := NextDelim(s.text, s.pos, d);
      if j.Some? then (s.text[s.pos..j.value], Good(s.text, j.value + 1))
      else (s.text[s.pos..], Exhausted)
  }

  /** The indices of `d` in `s`, in increasing order. */
  function Positions(s: string, d: char): (p: seq<nat>)
    ensures forall k :: 0 <= k < |p| ==> p[k] < |s|
  {
    if s == [] then []
    else
      var last := |s| - 1;
      var q := Positions(s[..last], d);
      if s[last] == d then q + [last] else q
  }

  /** `p` lists exactly the indices of `d` in `s`, in increasing order. */
  ghost predicate IndexList(p: seq<nat>, s: string, d: char)
  {
    && (forall k :: 0 <= k < |p| ==> p[k] < |s| && s[p[k]] == d)
    && (forall a, b :: 0 <= a < b < |p| ==> p[a] < p[b])
    && (forall j :: 0 <= j < |s| && s[j] == d ==> j in p)
  }

  lemma {:induction false} PositionsIndexList(s: string, d: char)
    ensures IndexList(Positions(s, d), s, d)
  {
    if s != [] {
      var last := |s| - 1;
      PositionsIndexList(s[..last], d);
      assert forall j :: 0 <= j < last ==> s[..last][j] == s[j];
    }
  }

  /** Where the i-th `d`-separated field of `s` starts and ends. */
  function FieldStart(s: string, d: char, i: nat): nat
    requires i <= |Positions(s, d)|
  {
    if i == 0 then 0 else Positions(s, d)[i - 1] + 1
  }

  function FieldEnd(s: string, d: char, i: nat): nat
    requires i <= |Positions(s, d)|
  {
    if i < |Positions(s, d)| then Positions(s, d)[i] else |s|
  }

  /** A strictly increasing sequence is monotone. */
  lemma Monotone(p: seq<nat>, a: nat, b: nat)
    requires forall x, y :: 0 <= x < y < |p| ==> p[x] < p[y]
    requires a <= b < |p|
    ensures p[a] <= p[b]
  {
    if a < b { assert p[a] < p[b]; }
  }

  /**
   * The i-th field lies inside `s` and holds no delimiter; a field before
   * the last ends at a delimiter.
   */
  lemma FieldBounds(s: string, d: char, i: nat)
    requires i <= |Positions(s, d)|
    ensures FieldStart(s, d, i) <= FieldEnd(s, d, i) <= |s|
    ensures forall k :: FieldStart(s, d, i) <= k < FieldEnd(s, d, i) ==> s[k] != d
    ensures i < |Positions(s, d)| ==> FieldEnd(s, d, i) < |s| && s[FieldEnd(s, d, i)] == d
  {
    var p := Positions(s, d);
    PositionsIndexList(s, d);
    var a, b := FieldStart(s, d, i), FieldEnd(s, d, i);
    if 0 < i < |p| { Monotone(p, i - 1, i); }
    forall m | 0 <= m < |p| ensures p[m] < a || b <= p[m] {
      if m < i { Monotone(p, m, i - 1); }
      else { Monotone(p, i, m); }
    }
  }

  /**
   * The i-th field of `s` split at every `d`: the text between the i-th
   * delimiter (or the start) and the next one (or the end); empty when
   * `s` has fewer than i delimiters.
   */
  function Field(s: string, d: char, i: nat): (f: string)
    ensures forall k :: 0 <= k < |f| ==> f[k] != d
  {
    if i <= |Positions(s, d)| then
      FieldBounds(s, d, i);
      s[FieldStart(s, d, i)..FieldEnd(s, d, i)]
    else ""
  }

  /** The first delimiter at or after `from` is the one at `j` when none comes before it. */
  lemma NextDelimAt(s: string, from: nat, d: char, j: nat)
    requires from <= j < |s| && s[j] == d
    requires forall k :: from <= k < j ==> s[k] != d
    ensures NextDelim(s, from, d) == Some(j)
  {}

  /** Reading from `from` yields the text up to `j`, which holds the next delimiter. */
  lemma ReadUpTo(s: string, from: nat, d: char, j: nat)
    requires NextDelim(s, from, d) == Some(j)
    ensures GetToken(Good(s, from), d) == (s[from..j], Good(s, j + 1))
  {}

  /** Reading from `from` with no delimiter left yields the rest and exhausts the stream. */
  lemma ReadToEnd(s: string, from: nat, d: char)
    requires from <= |s|
    requires NextDelim(s, from, d).None?
    ensures GetToken(Good(s, from), d) == (s[from..], Exhausted)
  {}

  /** A read from the start of a field before the last yields it and moves to the next. */
  lemma ReadInnerField(line: string, d: char, i: nat)
    requires i < |Positions(line, d)|
    ensures GetToken(Good(line, FieldStart(line, d, i)), d).0 == Field(line, d, i)
    ensures GetToken(Good(line, FieldStart(line, d, i)), d).1 == Good(line, FieldStart(line, d, i + 1))
  {
    var a, b := FieldStart(line, d, i), FieldEnd(line, d, i);
    FieldBounds(line, d, i);
    NextDelimAt(line, a, d, b);
    ReadUpTo(line, a, d, b);
  }

  /** A read from the start of the last field yields it and exhausts the stream. */
  lemma ReadLastField(line: string, d: char)
    ensures GetToken(Good(line, FieldStart(line, d, |Positions(line, d)|)), d).0
         == Field(line, d, |Positions(line, d)|)
    ensures GetToken(Good(line, FieldStart(line, d, |Positions(line, d)|)), d).1 == Exhausted
  {
    var i := |Positions(line, d)|;
    var a := FieldStart(line, d, i);
    FieldBounds(line, d, i);
    ReadToEnd(line, a, d);
  }

  /** The stream over `line` standing at the start of field `k`, or exhausted past the last. */
  function StreamAt(line: string, d: char, k: nat): Stream
  {
    if k <= |Positions(line, d)| then Good(line, FieldStart(line, d, k)) else Exhausted
  }

  /** A fresh stream over a line is at the start of its first field. */
  lemma StreamAtStart(line: string, d: char)
    ensures StreamAt(line, d, 0) == Good(line, 0)
  {
  }

  /**
   * A read from the start of field `k` yields that field and leaves the
   * stream at the start of the next; past the last field it yields the
   * empty string.
   */
  lemma ReadField(line: string, d: char, k: nat)
    ensures GetToken(StreamAt(line, d, k), d).0 == Field(line, d, k)
    ensures GetToken(StreamAt(line, d, k), d).1 == StreamAt(line, d, k + 1)
  {
    var n := |Positions(line, d)|;
    if k < n { ReadInnerField(line, d, k); }
    else if k == n { ReadLastField(line, d); }
  }

  // ---------------------------------------------------------------------
  // Fields of a joined line.

  /** `s` holds no `c`. */
  predicate Free(s: string, c: char)
  {
    forall k :: 0 <= k < |s| ==> s[k] != c
  }

  /** The strings of `fs` written one after another with `d` between them. */
  function JoinFields(fs: seq<string>, d: char): string
  {
    if |fs| == 0 then ""
    else if |fs| == 1 then fs[0]
    else fs[0] + [d] + JoinFields(fs[1..], d)
  }

  function Shift(p: seq<nat>, k: nat): (q: seq<nat>)
    ensures |q| == |p| && forall i :: 0 <= i < |p| ==> q[i] == p[i] + k
  {
    seq(|p|, i requires 0 <= i < |p| => p[i] + k)
  }

  /** The delimiters of a concatenation are those of each part, the second part's moved along. */
  lemma {:induction false} PositionsAppend(a: string, b: string, d: char)
    ensures Positions(a + b, d) == Positions(a, d) + Shift(Positions(b, d), |a|)
    decreases |b|
  {
    if b == [] {
      assert a + b == a;
    } else {
      var last := |b| - 1;
      var b' := b[..last];
      assert (a + b)[..|a + b| - 1] == a + b';
      PositionsAppend(a, b', d);
      assert (a + b)[|a + b| - 1] == b[last];
    }
  }

  lemma {:induction false} PositionsFree(s: string, d: char)
    requires Free(s, d)
    ensures Positions(s, d) == []
    decreases |s|
  {
    if s != [] {
      PositionsFree(s[..|s| - 1], d);
    }
  }

  /** A string with no delimiter is its own first field and has no other. */
  lemma FieldOfFree(s: string, d: char, i: nat)
    requires Free(s, d)
    ensures Field(s, d, i) == if i == 0 then s else ""
  {
    PositionsFree(s, d);
  }

  /** The delimiters of `s + [d] + t` when `s` holds none: the one after `s`, then those of `t`. */
  lemma PositionsSplit(s: string, t: string, d: char)
    requires Free(s, d)
    ensures Positions(s + [d] + t, d) == [|s|] + Shift(Positions(t, d), |s| + 1)
  {
    PositionsFree(s, d);
    PositionsAppend(s, [d], d);
    PositionsAppend(s + [d], t, d);
    assert Positions([d], d) == [0];
  }

  /** Splitting at the first delimiter: the text before it is the first field... */
  lemma FieldSplitHead(s: string, t: string, d: char)
    requires Free(s, d)
    ensures Field(s + [d] + t, d, 0) == s
  {
    PositionsSplit(s, t, d);
    assert (s + [d] + t)[..|s|] == s;
  }

  /** ...and the fields after it are those of the text after it. */
  lemma FieldSplit(s: string, t: string, d: char, i: nat)
    requires Free(s, d)
    ensures Field(s + [d] + t, d, i + 1) == Field(t, d, i)
  {
    var u := s + [d] + t;
    var o := |s| + 1;
    PositionsSplit(s, t, d);
    if i <= |Positions(t, d)| {
      var a, b := FieldStart(t, d, i), FieldEnd(t, d, i);
      assert FieldStart(u, d, i + 1) == a + o;
      assert FieldEnd(u, d, i + 1) == b + o;
      FieldBounds(t, d, i);
      assert u[a + o..b + o] == t[a..b];
    }
  }

  /** Each field of a joined line is the string written there. */
  lemma {:induction false} FieldOfJoin(fs: seq<string>, d: char, i: nat)
    requires forall k :: 0 <= k < |fs| ==> Free(fs[k], d)
    requires i < |fs|
    ensures Field(JoinFields(fs, d), d, i) == fs[i]
  {
    if |fs| == 1 {
      FieldOfFree(fs[0], d, i);
    } else {
      var rest := JoinFields(fs[1..], d);
      if i == 0 {
        FieldSplitHead(fs[0], rest, d);
      } else {
        FieldSplit(fs[0], rest, d, i - 1);
        FieldOfJoin(fs[1..], d, i - 1);
      }
    }
  }

  /** A joined line has no field after the last string written: reading past it yields "". */
  lemma {:induction false} FieldPastJoin(fs: seq<string>, d: char, i: nat)
    requires forall k :: 0 <= k < |fs| ==> Free(fs[k], d)
    requires 1 <= |fs| <= i
    ensures Field(JoinFields(fs, d), d, i) == ""
  {
    if |fs| == 1 {
      FieldOfFree(fs[0], d, i);
    } else {
      FieldSplit(fs[0], JoinFields(fs[1..], d), d, i - 1);
      FieldPastJoin(fs[1..], d, i - 1);
    }
  }

  /** A joined line holds no character that is neither the delimiter nor in one of its strings. */
  lemma {:induction false} JoinFree(fs: seq<string>, d: char, c: char)
    requires c != d && forall k :: 0 <= k < |fs| ==> Free(fs[k], c)
    ensures Free(JoinFields(fs, d), c)
  {
    if |fs| > 1 {
      JoinFree(fs[1..], d, c);
    }
  }

  // ---------------------------------------------------------------------
  // `std::istringstream{token} >> value` for a 32-bit int (libstdc++):
  // leading whitespace is skipped, and if nothing is left the value is
  // not touched; otherwise an optional sign and the longest run of decimal
  // digits are read, no digits writes 0, and a value out of range is
  // clamped to the int limits.

  const IntMin: int := -0x8000_0000
  const IntMax: int := 0x7FFF_FFFF

  predicate IsSpace(c: char)
  {
    c == ' ' || c == '\t' || c == '\n' || c == '\r' || c == '\U{000B}' || c == '\U{000C}'
  }

  predicate IsDigit(c: char)
  {
    '0' <= c <= '9'
  }

  /** The token holds nothing but whitespace. */
  predicate Blank(s: string)
  {
    forall j :: 0 <= j < |s| ==> IsSpace(s[j])
  }

  /** The index of the first non-whitespace character of `s` at or after `from`. */
  function SkipSpace(s: string, from: nat): (k: nat)
    requires from <= |s|
    ensures from <= k <= |s|
    ensures forall j :: from <= j < k ==> IsSpace(s[j])
    ensures k < |s| ==> !IsSpace(s[k])
    decreases |s| - from
  {
    if from < |s| && IsSpace(s[from]) then SkipSpace(s, from + 1) else from
  }

  function DigitPrefix(s: string): (r: string)
    ensures |r| <= |s|
    ensures forall k :: 0 <= k < |r| ==> IsDigit(r[k])
    ensures |r| < |s| ==> !IsDigit(s[|r|])
  {
    if s != [] && IsDigit(s[0]) then [s[0]] + DigitPrefix(s[1..]) else []
  }

  /** The value of a string of decimal digits. */
  function DigitsValue(ds: string): nat
    requires forall k :: 0 <= k < |ds| ==> IsDigit(ds[k])
  {
    if ds == [] then 0
    else
      var c := ds[|ds| - 1];
      assert IsDigit(c);
      DigitsValue(ds[..|ds| - 1]) * 10 + (c as int - '0' as int)
  }

  function Clamp(v: int): (r: int)
    ensures IntMin <= r <= IntMax
    ensures IntMin <= v <= IntMax ==> r == v
  {
    if v < IntMin then IntMin else if v > IntMax then IntMax else v
  }

  /** The int that `>>` leaves in a field holding `prev`. */
  function ParseInt(token: string, prev: int): (r: int)
    ensures Blank(token) ==> r == prev
    ensures !Blank(token) ==> IntMin <= r <= IntMax
  {
    var k := SkipSpace(token, 0);
    if k == |token| then prev
    else
      var start := if token[k] == '-' || token[k] == '+' then k + 1 else k;
      var ds := DigitPrefix(token[start..]);
      if ds == [] then 0
      else Clamp(if token[k] == '-' then 0 - DigitsValue(ds) else DigitsValue(ds))
  }

  /** The decimal text of a natural number, as `<<` writes it. */
  function FormatNat(n: nat): (s: string)
    ensures s != [] && forall k :: 0 <= k < |s| ==> IsDigit(s[k])
  {
    if n < 10 then [('0' as int + n) as char]
    else FormatNat(n / 10) + [('0' as int + n % 10) as char]
  }

  function FormatInt(v: int): (s: string)
    ensures s != [] && (s[0] == '-' || IsDigit(s[0]))
  {
    if v < 0 then "-" + FormatNat(-v) else FormatNat(v)
  }

  lemma {:induction false} DigitsValueOfFormat(n: nat)
    ensures DigitsValue(FormatNat(n)) == n
  {
    if n >= 10 {
      DigitsValueOfFormat(n / 10);
      var s := FormatNat(n);
      assert s[..|s| - 1] == FormatNat(n / 10);
    }
  }

  lemma {:induction false} DigitPrefixOfDigits(ds: string, tail: string)
    requires forall k :: 0 <= k < |ds| ==> IsDigit(ds[k])
    requires tail == [] || !IsDigit(tail[0])
    ensures DigitPrefix(ds + tail) == ds
  {
    if ds != [] {
      assert (ds + tail)[1..] == ds[1..] + tail;
      DigitPrefixOfDigits(ds[1..], tail);
    } else {
      assert ds + tail == tail;
    }
  }

  /** Skipping whitespace from `from` stops at the first non-blank character `k`. */
  lemma {:induction false} SkipSpaceTo(s: string, from: nat, k: nat)
    requires from <= k < |s| && !IsSpace(s[k])
    requires forall j :: from <= j < k ==> IsSpace(s[j])
    ensures SkipSpace(s, from) == k
    decreases k - from
  {
    if from < k {
      SkipSpaceTo(s, from + 1, k);
    }
  }

  /** Leading whitespace is skipped up to the first non-blank character after it. */
  lemma SkipBlanks(blanks: string, rest: string)
    requires Blank(blanks) && rest != [] && !IsSpace(rest[0])
    ensures SkipSpace(blanks + rest, 0) == |blanks|
  {
    var s := blanks + rest;
    forall j | 0 <= j < |blanks| ensures IsSpace(s[j]) {
      assert s[j] == blanks[j];
    }
    SkipSpaceTo(s, 0, |blanks|);
  }

  /** The digits read after the whitespace at `k` and the sign, if any. */
  lemma ParseIntFrom(s: string, k: nat, signed: bool, ds: string, prev: int)
    requires k < |s| && SkipSpace(s, 0) == k
    requires (s[k] == '-' || s[k] == '+') <==> signed
    requires DigitPrefix(s[k + (if signed then 1 else 0)..]) == ds && ds != []
    ensures ParseInt(s, prev) == Clamp(if s[k] == '-' then 0 - DigitsValue(ds) else DigitsValue(ds))
  {
  }

  /** A signed run of digits starts with its sign, or with its first digit. */
  lemma SignedStart(sign: string, ds: string, tail: string)
    requires sign == "" || sign == "-" || sign == "+"
    requires ds != [] && IsDigit(ds[0])
    ensures var rest := sign + (ds + tail);
      rest != [] && !IsSpace(rest[0])
      && ((rest[0] == '-' || rest[0] == '+') <==> sign != "")
      && (rest[0] == '-' <==> sign == "-")
  {
    assert (ds + tail)[0] == ds[0];
  }

  /** After the whitespace come the sign, and after the sign the digits and the tail. */
  lemma SignedTail(blanks: string, sign: string, ds: string, tail: string)
    ensures var s := blanks + (sign + (ds + tail));
      && |blanks| + |sign| <= |s|
      && (sign + (ds + tail) != [] ==> s[|blanks|] == (sign + (ds + tail))[0])
      && s[|blanks| + |sign|..] == ds + tail
  {
  }

  /**
   * A token of leading whitespace, an optional sign, a run of digits and a
   * tail that does not start with a digit reads as the digits' value,
   * negated after a minus sign and clamped to the int limits.
   */
  lemma ParseSigned(s: string, blanks: string, sign: string, ds: string, tail: string, prev: int)
    requires Blank(blanks)
    requires sign == "" || sign == "-" || sign == "+"
    requires ds != [] && forall k :: 0 <= k < |ds| ==> IsDigit(ds[k])
    requires tail == [] || !IsDigit(tail[0])
    requires s == blanks + (sign + (ds + tail))
    ensures ParseInt(s, prev) == Clamp(if sign == "-" then 0 - DigitsValue(ds) else DigitsValue(ds))
  {
    var k, rest := |blanks|, sign + (ds + tail);
    assert k < |s| && SkipSpace(s, 0) == k && s[k] == rest[0]
        && ((s[k] == '-' || s[k] == '+') <==> sign != "") && (s[k] == '-' <==> sign == "-") by {
      SignedStart(sign, ds, tail);
      SkipBlanks(blanks, rest);
      SignedTail(blanks, sign, ds, tail);
    }
    assert DigitPrefix(s[k + (if sign != "" then 1 else 0)..]) == ds by {
      SignedTail(blanks, sign, ds, tail);
      DigitPrefixOfDigits(ds, tail);
    }
    ParseIntFrom(s, k, sign != "", ds, prev);
  }

  /**
   * Round trip: an int written in decimal and followed by anything that is
   * not a digit reads back as itself, whatever the field held before.
   */
  lemma FormatThenParse(v: int, tail: string, prev: int)
    requires IntMin <= v <= IntMax
    requires tail == [] || !IsDigit(tail[0])
    ensures ParseInt(FormatInt(v) + tail, prev) == v
  {
    var n: nat := if v < 0 then -v else v;
    var sign := if v < 0 then "-" else "";
    assert FormatInt(v) + tail == "" + (sign + (FormatNat(n) + tail));
    ParseSigned(FormatInt(v) + tail, "", sign, FormatNat(n), tail, prev);
    DigitsValueOfFormat(n);
  }
}
