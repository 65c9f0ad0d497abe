/** The handful of Python `str` operations the service relies on, over
    `seq<char>`: `strip`, `lower`, `in` (substring), `split(",")[0]`, and
    the decimal text of an integer as `int()` reads it and `f"{n}"` writes it.
    `strip` removes Python's `str.isspace` characters and `int()` its own,
    smaller set; case folding is the ASCII one. */
module Strings {
  import opened Wrappers

  /** The characters for which Python's `str.isspace()` holds, which
      `str.strip()` removes: tab to carriage return, the four ASCII
      separators, space, next line, no-break space and the Unicode space and
      line/paragraph separators. */
  predicate IsSpace(c: char) {
    || '\U{09}' <= c <= '\U{0D}'
    || '\U{1C}' <= c <= '\U{20}'
    || c == '\U{85}' || c == '\U{A0}' || c == '\U{1680}'
    || '\U{2000}' <= c <= '\U{200A}'
    || c == '\U{2028}' || c == '\U{2029}' || c == '\U{202F}' || c == '\U{205F}' || c == '\U{3000}'
  }

  /** The white space `int()` skips around a number. Non-ASCII white space
      is first turned into a space, and then only tab to carriage return and
      the space are skipped, so the four ASCII separators `\x1c` to `\x1f`
      are not white space here. */
  predicate IsIntSpace(c: char) {
    IsSpace(c) && !('\U{1C}' <= c <= '\U{1F}')
  }

  /** Which white space a strip removes: `str.strip()`'s or `int()`'s. */
  datatype Blank = StrBlank | IntBlank

  predicate Skips(ws: Blank, c: char) {
    match ws
    case StrBlank => IsSpace(c)
    case IntBlank => IsIntSpace(c)
  }

  /** `s` with its leading `ws` characters removed. */
  function TrimLeft(s: string, ws: Blank): (r: string)
    ensures |r| <= |s|
    ensures r == [] || !Skips(ws, r[0])
    ensures forall i :: 0 <= i < |s| - |r| ==> Skips(ws, s[i])
  {
    if |s| > 0 && Skips(ws, s[0]) then TrimLeft(s[1..], ws) else s
  }

  /** `s` with its trailing `ws` characters removed. */
  function TrimRight(s: string, ws: Blank): (r: string)
    ensures |r| <= |s|
    ensures r == [] || !Skips(ws, r[|r| - 1])
    ensures forall i :: |r| <= i < |s| ==> Skips(ws, s[i])
  {
    if |s| > 0 && Skips(ws, s[|s| - 1]) then TrimRight(s[..|s| - 1], ws) else s
  }

  /** The slice of `s` that is left once all leading and trailing
      `ws` characters are gone. */
  function StripBy(s: string, ws: Blank): (r: string)
    ensures |r| <= |s|
    ensures r == [] || (!Skips(ws, r[0]) && !Skips(ws, r[|r| - 1]))
  {
    var t := TrimLeft(s, ws);
    TrimRightIsPrefix(t, ws);
    TrimRight(t, ws)
  }

  /** Python's `s.strip()`. */
  function Strip(s: string): (r: string)
    ensures |r| <= |s|
    ensures r == [] || (!IsSpace(r[0]) && !IsSpace(r[|r| - 1]))
  {
    StripBy(s, StrBlank)
  }

  /** The text `int()` goes on to read: `s` without the white space it skips. */
  function IntStrip(s: string): (r: string)
    ensures |r| <= |s|
    ensures r == [] || (!IsIntSpace(r[0]) && !IsIntSpace(r[|r| - 1]))
  {
    StripBy(s, IntBlank)
  }

  lemma {:induction false} TrimLeftIsSuffix(s: string, ws: Blank)
    ensures TrimLeft(s, ws) == s[|s| - |TrimLeft(s, ws)|..]
  {
    if |s| > 0 && Skips(ws, s[0]) {
      TrimLeftIsSuffix(s[1..], ws);
    }
  }

  lemma {:induction false} TrimRightIsPrefix(s: string, ws: Blank)
    ensures TrimRight(s, ws) == s[..|TrimRight(s, ws)|]
  {
    if |s| > 0 && Skips(ws, s[|s| - 1]) {
      TrimRightIsPrefix(s[..|s| - 1], ws);
    }
  }

  /** Stripping removes only padding: the result is the slice of `s`
      between a run of `ws` characters at the start and a run of `ws`
      white space at the end. */
  lemma StripRemovesOnlyPadding(s: string, ws: Blank)
    ensures exists i, j :: 0 <= i <= j <= |s| && StripBy(s, ws) == s[i..j]
              && (forall k :: 0 <= k < i ==> Skips(ws, s[k]))
              && (forall k :: j <= k < |s| ==> Skips(ws, s[k]))
  {
    var t := TrimLeft(s, ws);
    TrimLeftIsSuffix(s, ws);
    TrimRightIsPrefix(t, ws);
    var i := |s| - |t|;
    var j := i + |StripBy(s, ws)|;
    assert StripBy(s, ws) == s[i..j];
    forall k | j <= k < |s| ensures Skips(ws, s[k]) {
      assert s[k] == t[k - i];
    }
  }

  /** The strip of a string is a piece of it. */
  lemma StripContained(s: string, ws: Blank)
    ensures Contains(s, StripBy(s, ws))
  {
    var t := TrimLeft(s, ws);
    TrimLeftIsSuffix(s, ws);
    TrimRightIsPrefix(t, ws);
    var i := |s| - |t|;
    assert s[i..i + |StripBy(s, ws)|] == StripBy(s, ws);
    assert OccursAt(s, StripBy(s, ws), i);
  }

  /** Stripping twice is stripping once. */
  lemma StripIdempotent(s: string, ws: Blank)
    ensures StripBy(StripBy(s, ws), ws) == StripBy(s, ws)
  {
    var r := StripBy(s, ws);
    if r != [] {
      StripNoSpace(r, ws);
    }
  }

  /** A string that neither starts nor ends with a `ws` character is its own
      strip. */
  lemma StripNoSpace(s: string, ws: Blank)
    requires s != [] && !Skips(ws, s[0]) && !Skips(ws, s[|s| - 1])
    ensures StripBy(s, ws) == s
  {
    TrimLeftNoSpace(s, ws);
    TrimRightNoSpace(s, ws);
  }

  lemma TrimLeftNoSpace(s: string, ws: Blank)
    requires s != [] && !Skips(ws, s[0])
    ensures TrimLeft(s, ws) == s
  {
  }

  lemma TrimRightNoSpace(s: string, ws: Blank)
    requires s != [] && !Skips(ws, s[|s| - 1])
    ensures TrimRight(s, ws) == s
  {
  }

  function LowerChar(c: char): char {
    if 'A' <= c <= 'Z' then (c as int + 32) as char else c
  }

  /** Python's `s.lower()` restricted to ASCII letters. */
  function Lower(s: string): (r: string)
    ensures |r| == |s|
    ensures forall i :: 0 <= i < |s| ==> r[i] == LowerChar(s[i])
  {
    seq(|s|, i requires 0 <= i < |s| => LowerChar(s[i]))
  }

  lemma LowerAppend(a: string, b: string)
    ensures Lower(a + b) == Lower(a) + Lower(b)
  {
  }

  /** Text without capital letters is its own lower case. */
  lemma LowerNoCapitals(s: string)
    requires forall i :: 0 <= i < |s| ==> !('A' <= s[i] <= 'Z')
    ensures Lower(s) == s
  {
  }

  /** Python's `needle in hay` for strings. */
  predicate Contains(hay: string, needle: string)
    ensures needle == [] ==> Contains(hay, needle)
    ensures |needle| > |hay| ==> !Contains(hay, needle)
  {
    assert needle == [] ==> OccursAt(hay, needle, 0);
    exists i :: 0 <= i <= |hay| - |needle| && OccursAt(hay, needle, i)
  }

  /** `needle` starts at position `i` of `hay`. */
  predicate OccursAt(hay: string, needle: string, i: int) {
    0 <= i <= |hay| - |needle| && hay[i..i + |needle|] == needle
  }

  lemma ContainsMiddle(a: string, b: string, c: string)
    ensures Contains(a + b + c, b)
  {
    assert (a + b + c)[|a|..|a| + |b|] == b;
    assert OccursAt(a + b + c, b, |a|);
  }

  /** The concatenation of a list of strings, as adjacent f-string pieces
      make one string. */
  function Concat(parts: seq<string>): string
  {
    if parts == [] then [] else parts[0] + Concat(parts[1..])
  }

  lemma {:induction false} ConcatSplit(parts: seq<string>, k: nat)
    requires k < |parts|
    ensures Concat(parts) == Concat(parts[..k]) + parts[k] + Concat(parts[k + 1..])
  {
    if k > 0 {
      var rest := parts[1..];
      ConcatSplit(rest, k - 1);
      assert rest[..k - 1] == parts[1..k];
      assert rest[k..] == parts[k + 1..];
      assert rest[k - 1] == parts[k];
      var x, y := Concat(parts[1..k]), Concat(parts[k + 1..]);
      assert Concat(rest) == x + parts[k] + y;
      assert parts[..k][1..] == parts[1..k];
      assert Concat(parts[..k]) == parts[0] + x;
      assert Concat(parts) == parts[0] + (x + parts[k] + y);
      assert parts[0] + (x + parts[k] + y) == (parts[0] + x) + parts[k] + y;
    } else {
      assert parts[..0] == [];
      assert parts[1..] == parts[k + 1..];
    }
  }

  /** Every piece of a concatenation occurs in it. */
  lemma ConcatContainsPart(parts: seq<string>, k: nat)
    requires k < |parts|
    ensures Contains(Concat(parts), parts[k])
  {
    ConcatSplit(parts, k);
    ContainsMiddle(Concat(parts[..k]), parts[k], Concat(parts[k + 1..]));
  }

  /** Lower-casing keeps every substring, lower-cased. */
  lemma LowerKeepsContains(hay: string, needle: string)
    requires Contains(hay, needle)
    ensures Contains(Lower(hay), Lower(needle))
  {
    var i :| 0 <= i <= |hay| - |needle| && OccursAt(hay, needle, i);
    assert Lower(hay)[i..i + |needle|] == Lower(needle);
    assert OccursAt(Lower(hay), Lower(needle), i);
  }

  /** No substring of a string is longer than it, nor contains a character
      it lacks. */
  lemma ContainsCharIn(hay: string, needle: string, k: nat)
    requires Contains(hay, needle) && k < |needle|
    ensures needle[k] in hay
  {
    var i :| 0 <= i <= |hay| - |needle| && OccursAt(hay, needle, i);
    assert hay[i + k] == needle[k];
  }

  /** A string lacking one of the needle's characters does not contain it. */
  lemma MissingCharNotContained(hay: string, needle: string, k: nat)
    requires k < |needle| && needle[k] !in hay
    ensures !Contains(hay, needle)
  {
    forall i | 0 <= i <= |hay| - |needle| ensures !OccursAt(hay, needle, i) {
      assert hay[i..i + |needle|][k] == hay[i + k] != needle[k];
    }
  }

  /** Python's `s.split(sep)[0]`: everything before the first `sep`. */
  function BeforeFirst(s: string, sep: char): (r: string)
    ensures |r| <= |s| && r == s[..|r|]
    ensures sep !in r
    ensures |r| < |s| ==> s[|r|] == sep
  {
    if s == [] then []
    else if s[0] == sep then []
    else [s[0]] + BeforeFirst(s[1..], sep)
  }

  // ----- decimal integers -----

  predicate IsDigit(c: char) { '0' <= c <= '9' }

  predicate AllDigits(s: string) {
    forall i :: 0 <= i < |s| ==> IsDigit(s[i])
  }

  function DigitChar(d: nat): (c: char)
    requires d < 10
    ensures IsDigit(c) && c as int - '0' as int == d
  {
    ('0' as int + d) as char
  }

  /** The value of a string of decimal digits, most significant first. */
  function DigitsValue(s: string): nat
    requires AllDigits(s)
  {
    if s == [] then 0 else DigitsValue(s[..|s| - 1]) * 10 + (s[|s| - 1] as int - '0' as int)
  }

  /** The decimal text of a natural number, without leading zeros. */
  function ShowNat(n: nat): (r: string)
    ensures |r| > 0 && AllDigits(r)
    ensures r[0] != '0' || n == 0
  {
    if n < 10 then [DigitChar(n)] else ShowNat(n / 10) + [DigitChar(n % 10)]
  }

  lemma {:induction false} DigitsValueShowNat(n: nat)
    ensures DigitsValue(ShowNat(n)) == n
  {
    if n >= 10 {
      DigitsValueShowNat(n / 10);
      var s := ShowNat(n);
      assert s[..|s| - 1] == ShowNat(n / 10);
    }
  }

  /** Python's `str(n)` (and `f"{n}"`) for an integer. */
  function ShowInt(n: int): (r: string)
    ensures |r| > 0 && !IsSpace(r[0]) && !IsSpace(r[|r| - 1])
    ensures r[0] == '-' <==> n < 0
    ensures AllDigits(if n < 0 then r[1..] else r)
  {
    if n < 0 then "-" + ShowNat(-n) else ShowNat(n)
  }

  /** Python's `int(s)` on decimal text: surrounding white space of the kind
      `int()` skips, an optional sign, then one or more ASCII digits; anything
      else is a `ValueError`, here `None`. */
  function ParseInt(s: string): (r: Option<int>)
    ensures IntStrip(s) == [] ==> r == None
    ensures r.Some? && r.value < 0 ==> IntStrip(s)[0] == '-'
    ensures var t := IntStrip(s);
            r.Some? <==> (|t| > 0 && AllDigits(t)) || (|t| > 1 && (t[0] == '-' || t[0] == '+') && AllDigits(t[1..]))
    ensures AllDigits(IntStrip(s)) && IntStrip(s) != [] ==> r == Some(DigitsValue(IntStrip(s)))
    ensures var t := IntStrip(s);
            |t| > 1 && t[0] == '-' && AllDigits(t[1..]) ==> r == Some(-(DigitsValue(t[1..]) as int))
    ensures var t := IntStrip(s);
            |t| > 1 && t[0] == '+' && AllDigits(t[1..]) ==> r == Some(DigitsValue(t[1..]) as int)
  {
    var t := IntStrip(s);
    if |t| > 0 && (t[0] == '-' || t[0] == '+') then
      var d := t[1..];
      if |d| > 0 && AllDigits(d) then
        Some(if t[0] == '-' then -(DigitsValue(d) as int) else DigitsValue(d))
      else None
    else if |t| > 0 && AllDigits(t) then
      Some(DigitsValue(t))
    else None
  }

  /** `int(str(n)) == n`: reading back the text of any integer gives it back. */
  lemma ParseShowInt(n: int)
    ensures ParseInt(ShowInt(n)) == Some(n)
  {
    ShownIsStripped(n);
    if n < 0 {
      DigitsValueShowNat(-n);
      ParseNegative(ShowInt(n), ShowNat(-n));
    } else {
      DigitsValueShowNat(n);
      ParseDigits(ShowInt(n));
    }
  }

  /** The decimal text of an integer has no white space to skip. */
  lemma ShownIsStripped(n: int)
    ensures IntStrip(ShowInt(n)) == ShowInt(n)
  {
    var s := ShowInt(n);
    assert !IsSpace(s[0]) && !IsSpace(s[|s| - 1]);
    StripNoSpace(s, IntBlank);
  }

  lemma ParseNegative(s: string, d: string)
    requires IntStrip(s) == s && s == "-" + d && d != [] && AllDigits(d)
    ensures ParseInt(s) == Some(-(DigitsValue(d) as int))
  {
    assert s[1..] == d;
  }

  lemma ParseDigits(s: string)
    requires IntStrip(s) == s && s != [] && AllDigits(s)
    ensures ParseInt(s) == Some(DigitsValue(s))
  {
  }

  /** Surrounding white space of the kind `int()` skips does not change
      what it reads. */
  lemma ParseIntIgnoresPadding(s: string)
    ensures ParseInt(s) == ParseInt(IntStrip(s))
  {
    StripIdempotent(s, IntBlank);
  }

  /** `int()` skips less than `strip()` does: `"\x1c5".strip()` is `"5"`, yet
      `int("\x1c5")` is a `ValueError`. */
  lemma ParseIntRejectsSeparatorPadding()
    ensures Strip("\U{1C}5") == "5"
    ensures ParseInt("\U{1C}5") == None
  {
    assert TrimLeft("\U{1C}5", StrBlank) == TrimLeft("5", StrBlank) == "5";
    StripNoSpace("\U{1C}5", IntBlank);
  }
}
