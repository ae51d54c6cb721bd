/** The few JavaScript string behaviours the handlers rely on: truthiness of an
    optional string, the decimal rendering of an integer inside a template
    literal, and `Array.prototype.join`. */
module Text {
  import opened Wrappers

  /** JavaScript truthiness of a value that is a string when present:
      `undefined`, `null` and `""` are falsy, every other string is truthy. */
  predicate Truthy(o: Option<string>) {
    o.Some? && o.value != ""
  }

  predicate IsDigit(c: char) {
    '0' <= c <= '9'
  }

  predicate AllDigits(s: string) {
    forall i :: 0 <= i < |s| ==> IsDigit(s[i])
  }

  function DigitChar(d: nat): (c: char)
    requires d < 10
    ensures IsDigit(c) && c as int - '0' as int == d
  {
    (d + '0' as int) as char
  }

  /** Decimal rendering of a natural number, without leading zeros. For a
      number below 10^21 this is what JavaScript's number-to-string
      conversion writes; from 10^21 on JavaScript switches to exponent form. */
  function NatToString(n: nat): (r: string)
    ensures |r| >= 1 && AllDigits(r)
    ensures |r| == 1 || r[0] != '0'
    decreases n
  {
    if n < 10 then [DigitChar(n)] else NatToString(n / 10) + [DigitChar(n % 10)]
  }

  /** The largest integer a JavaScript number holds exactly (2^53 - 1);
      `JSON.parse` rounds integers beyond it. */
  const MaxSafeInteger := 9007199254740991

  /** The integers a JSON body can carry exactly; JavaScript writes each of
      them in plain decimal. */
  type SafeInteger = i: int | -MaxSafeInteger <= i <= MaxSafeInteger

  /** Decimal rendering of an integer, with a leading `-` when it is negative. */
  function IntToString(i: int): (r: string)
    ensures |r| >= 1
    ensures i < 0 <==> r[0] == '-'
  {
    if i < 0 then "-" + NatToString(-i) else NatToString(i)
  }

  /** The value of a string of decimal digits. */
  function ParseNat(s: string): nat
    requires AllDigits(s)
  {
    if s == [] then 0
    else ParseNat(s[..|s| - 1]) * 10 + (s[|s| - 1] as int - '0' as int)
  }

  lemma {:induction false} NatRoundTrip(n: nat)
    ensures ParseNat(NatToString(n)) == n
    decreases n
  {
    if n >= 10 {
      var s := NatToString(n);
      assert s[..|s| - 1] == NatToString(n / 10);
      NatRoundTrip(n / 10);
    }
  }

  /** The length of the longest run of digits that `s` starts with. */
  function DigitRun(s: string): (k: nat)
    ensures k <= |s| && AllDigits(s[..k])
    ensures k < |s| ==> !IsDigit(s[k])
  {
    if s == [] || !IsDigit(s[0]) then 0
    else
      var k := 1 + DigitRun(s[1..]);
      assert s[..k] == [s[0]] + s[1..][..k - 1];
      k
  }

  /** Reads the integer (an optional `-` followed by digits) that `s` starts
      with, as a reader of a rendered template would. */
  function ReadInt(s: string): Option<int> {
    if |s| > 0 && s[0] == '-' then
      var k := DigitRun(s[1..]);
      if k == 0 then None else Some(0 - ParseNat(s[1..][..k]) as int)
    else
      var k := DigitRun(s);
      if k == 0 then None else Some(ParseNat(s[..k]))
  }

  lemma {:induction false} DigitRunOfDigits(ds: string, rest: string)
    requires AllDigits(ds)
    requires rest == [] || !IsDigit(rest[0])
    ensures DigitRun(ds + rest) == |ds|
    decreases |ds|
  {
    if ds != [] {
      assert (ds + rest)[1..] == ds[1..] + rest;
      DigitRunOfDigits(ds[1..], rest);
    }
  }

  /** What `IntToString` writes, `ReadInt` reads back, whatever follows it as
      long as that does not start with a digit. */
  lemma IntRoundTrip(i: int, rest: string)
    requires rest == [] || !IsDigit(rest[0])
    ensures ReadInt(IntToString(i) + rest) == Some(i)
  {
    var digits := NatToString(if i < 0 then -i else i);
    NatRoundTrip(if i < 0 then -i else i);
    DigitRunOfDigits(digits, rest);
    var s := IntToString(i) + rest;
    if i < 0 {
      assert s[1..] == digits + rest;
      assert s[1..][..|digits|] == digits;
    } else {
      assert s == digits + rest;
      assert s[..|digits|] == digits;
    }
  }

  /** `xs.join(sep)`: the items in order, with `sep` between neighbours. */
  function Join(xs: seq<string>, sep: string): (r: string)
    ensures xs == [] ==> r == ""
    ensures |xs| == 1 ==> r == xs[0]
  {
    if xs == [] then ""
    else if |xs| == 1 then xs[0]
    else Join(xs[..|xs| - 1], sep) + sep + xs[|xs| - 1]
  }

  function TotalLength(xs: seq<string>): nat {
    if xs == [] then 0 else TotalLength(xs[..|xs| - 1]) + |xs[|xs| - 1]|
  }

  /** A joined string is as long as its items together plus one separator for
      each pair of neighbours. */
  lemma {:induction false} JoinLength(xs: seq<string>, sep: string)
    ensures |Join(xs, sep)| == TotalLength(xs) + (if xs == [] then 0 else (|xs| - 1) * |sep|)
  {
    if |xs| > 1 {
      JoinLength(xs[..|xs| - 1], sep);
      assert xs[..|xs| - 1][..|xs| - 2] == xs[..|xs| - 2];
    } else if |xs| == 1 {
      assert xs[..0] == [];
    }
  }

  /** `x` stands in `s` at offset `off`. */
  predicate StandsAt(s: string, x: string, off: int) {
    0 <= off && off + |x| <= |s| && s[off..off + |x|] == x
  }

  /** What stands in a string still stands there once more is appended. */
  lemma StandsAtExtended(s: string, t: string, x: string, off: int)
    requires StandsAt(s, x, off)
    ensures StandsAt(s + t, x, off)
  {
    assert (s + t)[off..off + |x|] == s[off..off + |x|];
  }

  /** The last two parts of a three-part concatenation stand after the first. */
  lemma StandsAtEnd(j: string, sep: string, x: string)
    ensures StandsAt(j + sep + x, sep, |j|)
    ensures StandsAt(j + sep + x, x, |j| + |sep|)
  {
    assert (j + sep + x)[|j|..|j| + |sep|] == sep;
    assert (j + sep + x)[|j| + |sep|..|j| + |sep| + |x|] == x;
  }

  /** A string that a suffix begins with stands where the suffix starts, and
      what follows it is the rest of the suffix. */
  lemma StandsAtSuffix(p: string, k: int, x: string, r: string)
    requires 0 <= k <= |p| && p[k..] == x + r
    ensures StandsAt(p, x, k) && p[k + |x|..] == r
  {
    assert p[k..k + |x|] == (x + r)[..|x|];
    assert p[k + |x|..] == (x + r)[|x|..];
  }

  /** Three strings that a suffix begins with stand one after the other where
      the suffix starts, and what follows them is the rest of the suffix. */
  lemma StandsAtSuffix3(p: string, k: int, a: string, b: string, c: string, r: string)
    requires 0 <= k <= |p| && p[k..] == a + (b + (c + r))
    ensures StandsAt(p, a, k) && StandsAt(p, b, k + |a|) && StandsAt(p, c, k + |a| + |b|)
    ensures p[k + |a| + |b| + |c|..] == r
  {
    StandsAtSuffix(p, k, a, b + (c + r));
    StandsAtSuffix(p, k + |a|, b, c + r);
    StandsAtSuffix(p, k + |a| + |b|, c, r);
  }

  /** A suffix stands where it starts. */
  lemma StandsAtOwnSuffix(p: string, k: int, x: string)
    requires 0 <= k <= |p| && p[k..] == x
    ensures StandsAt(p, x, k)
  {
    assert p[k..k + |x|] == p[k..];
  }

  /** The offset of item i in a join of `xs` with separator `sep`. */
  function JoinOffset(xs: seq<string>, sep: string, i: nat): nat
    requires i <= |xs|
  {
    TotalLength(xs[..i]) + i * |sep|
  }

  /** The last item of a join of two or more items, and the separator before it. */
  lemma JoinLastAt(xs: seq<string>, sep: string)
    requires |xs| > 1
    ensures StandsAt(Join(xs, sep), xs[|xs| - 1], JoinOffset(xs, sep, |xs| - 1))
    ensures StandsAt(Join(xs, sep), sep, JoinOffset(xs, sep, |xs| - 1) - |sep|)
  {
    var init := xs[..|xs| - 1];
    var j := Join(init, sep);
    assert Join(xs, sep) == j + sep + xs[|xs| - 1];
    JoinLength(init, sep);
    var k := |init| - 1;
    assert (k + 1) * |sep| == k * |sep| + |sep|;
    assert JoinOffset(xs, sep, |xs| - 1) == |j| + |sep|;
    StandsAtEnd(j, sep, xs[|xs| - 1]);
  }

  /** Item i of a join stands after the items before it and one separator
      between each pair of them, and a separator stands just before it. With
      `JoinLength` this fixes the joined string completely. */
  lemma {:induction false} JoinItemAt(xs: seq<string>, sep: string, i: nat)
    requires i < |xs|
    ensures StandsAt(Join(xs, sep), xs[i], JoinOffset(xs, sep, i))
    ensures i > 0 ==> StandsAt(Join(xs, sep), sep, JoinOffset(xs, sep, i) - |sep|)
    decreases |xs|
  {
    if |xs| == 1 {
      assert xs[..0] == [];
    } else if i == |xs| - 1 {
      JoinLastAt(xs, sep);
    } else {
      var init := xs[..|xs| - 1];
      var last := sep + xs[|xs| - 1];
      JoinItemAt(init, sep, i);
      assert init[..i] == xs[..i];
      assert JoinOffset(init, sep, i) == JoinOffset(xs, sep, i);
      assert Join(xs, sep) == Join(init, sep) + last;
      StandsAtExtended(Join(init, sep), last, xs[i], JoinOffset(xs, sep, i));
      if i > 0 {
        StandsAtExtended(Join(init, sep), last, sep, JoinOffset(xs, sep, i) - |sep|);
      }
    }
  }

  /** Every item of a join stands at its offset, after a separator unless
      it is the first. */
  lemma JoinItems(xs: seq<string>, sep: string)
    ensures forall i :: 0 <= i < |xs| ==>
      StandsAt(Join(xs, sep), xs[i], JoinOffset(xs, sep, i)) &&
      (i > 0 ==> StandsAt(Join(xs, sep), sep, JoinOffset(xs, sep, i) - |sep|))
  {
    forall i | 0 <= i < |xs|
      ensures StandsAt(Join(xs, sep), xs[i], JoinOffset(xs, sep, i))
      ensures i > 0 ==> StandsAt(Join(xs, sep), sep, JoinOffset(xs, sep, i) - |sep|)
    {
      JoinItemAt(xs, sep, i);
    }
  }

  /** The joined string starts with the first item and ends with the last. */
  lemma {:induction false} JoinEnds(xs: seq<string>, sep: string)
    requires xs != []
    ensures |Join(xs, sep)| >= |xs[0]| && Join(xs, sep)[..|xs[0]|] == xs[0]
    ensures |Join(xs, sep)| >= |xs[|xs| - 1]|
    ensures Join(xs, sep)[|Join(xs, sep)| - |xs[|xs| - 1]|..] == xs[|xs| - 1]
  {
    if |xs| > 1 {
      var init := xs[..|xs| - 1];
      JoinEnds(init, sep);
      assert init[0] == xs[0];
      var j := Join(init, sep);
      assert Join(xs, sep) == j + sep + xs[|xs| - 1];
      assert (j + sep + xs[|xs| - 1])[..|xs[0]|] == j[..|xs[0]|];
    }
  }
}
