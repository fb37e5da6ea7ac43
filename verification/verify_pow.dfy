/** `verifyPow` of demo/src/lib/publish.ts: the proof of work an event claims,
    clamped to what its hash shows. The hash's leading-zero count is an input. */
module PowCheck {
  import opened Wrappers

  /** A JavaScript number as `verifyPow` can return it: an integer, or NaN when
      the declared target does not parse. */
  datatype PowValue = Num(value: int) | NaN

  /** A tag is a nonce tag when its first element is "nonce". */
  predicate IsNonceTag(tag: seq<string>) {
    |tag| > 0 && tag[0] == "nonce"
  }

  /** `tags.find(tag => tag[0] === 'nonce')`, as the index of the tag found. */
  function FindNonceTag(tags: seq<seq<string>>): (r: Option<nat>)
    ensures r.Some? ==> r.value < |tags| && IsNonceTag(tags[r.value])
    ensures r.Some? ==> forall i | 0 <= i < r.value :: !IsNonceTag(tags[i])
    ensures r.None? ==> forall i | 0 <= i < |tags| :: !IsNonceTag(tags[i])
  {
    if tags == [] then None
    else if IsNonceTag(tags[0]) then Some(0)
    else match FindNonceTag(tags[1..])
      case None => None
      case Some(k) => Some(k + 1)
  }

  /** The characters `parseInt` skips before the number: ECMAScript's white space
      and line terminators. */
  predicate IsJsWhiteSpace(c: char) {
    c == '\t' || c == '\n' || c == '\U{000B}' || c == '\U{000C}' || c == '\r' || c == ' ' ||
    c == '\U{00A0}' || c == '\U{1680}' || ('\U{2000}' <= c <= '\U{200A}') ||
    c == '\U{2028}' || c == '\U{2029}' || c == '\U{202F}' || c == '\U{205F}' ||
    c == '\U{3000}' || c == '\U{FEFF}'
  }

  predicate IsDigit(c: char) {
    '0' <= c <= '9'
  }

  function DigitValue(c: char): nat
    requires IsDigit(c)
  {
    (c as int) - ('0' as int)
  }

  function DigitChar(d: nat): char
    requires d < 10
  {
    (('0' as int) + d) as char
  }

  function TrimStart(s: string): string {
    if s != [] && IsJsWhiteSpace(s[0]) then TrimStart(s[1..]) else s
  }

  /** The longest prefix of decimal digits. */
  function DigitPrefix(s: string): (r: string)
    ensures |r| <= |s| && r == s[..|r|]
    ensures forall i | 0 <= i < |r| :: IsDigit(r[i])
  {
    if s != [] && IsDigit(s[0]) then [s[0]] + DigitPrefix(s[1..]) else []
  }

  function DigitsValue(ds: string): nat
    requires forall i | 0 <= i < |ds| :: IsDigit(ds[i])
  {
    if ds == [] then 0 else DigitsValue(ds[..|ds| - 1]) * 10 + DigitValue(ds[|ds| - 1])
  }

  /** `parseInt(s, 10)`: skip leading white space, take an optional sign and the
      longest run of decimal digits after it; no digits gives NaN (None). */
  function ParseInt(s: string): Option<int> {
    var t := TrimStart(s);
    var negative := t != [] && t[0] == '-';
    var unsigned := if t != [] && (t[0] == '-' || t[0] == '+') then t[1..] else t;
    var digits := DigitPrefix(unsigned);
    var magnitude: int := DigitsValue(digits);
    if digits == [] then None
    else Some(if negative then -magnitude else magnitude)
  }

  /** The decimal numeral of a natural number, without sign or leading zeros. */
  function Decimal(n: nat): (s: string)
    ensures s != [] && forall i | 0 <= i < |s| :: IsDigit(s[i])
  {
    if n < 10 then [DigitChar(n)] else Decimal(n / 10) + [DigitChar(n % 10)]
  }

  function Min(a: int, b: int): int {
    if a <= b then a else b
  }

  /** `verifyPow(event)` where `count` is the number of leading zero bits of the
      event's hash: 0 without a nonce tag or when the first nonce tag has fewer
      than three elements; otherwise the smaller of `count` and the tag's target.
      It never exceeds `count`. */
  function VerifyPow(count: nat, tags: seq<seq<string>>): (r: PowValue)
    ensures r.Num? ==> r.value <= count
    ensures (forall i | 0 <= i < |tags| :: !IsNonceTag(tags[i])) ==> r == Num(0)
  {
    match FindNonceTag(tags)
    case None => Num(0)
    case Some(i) =>
      if |tags[i]| < 3 then Num(0)
      else match ParseInt(tags[i][2])
        case None => NaN
        case Some(target) => Num(Min(count, target))
  }

  /** `DigitPrefix` takes exactly the digits of a numeral, stopping at a non-digit. */
  lemma {:induction false} DigitPrefixOfNumeral(ds: string, rest: string)
    requires forall i | 0 <= i < |ds| :: IsDigit(ds[i])
    requires rest == [] || !IsDigit(rest[0])
    ensures DigitPrefix(ds + rest) == ds
  {
    if ds != [] {
      assert (ds + rest)[1..] == ds[1..] + rest;
      DigitPrefixOfNumeral(ds[1..], rest);
      assert [ds[0]] + ds[1..] == ds;
    } else {
      assert ds + rest == rest;
    }
  }

  /** The value of a numeral is the number it was written from. */
  lemma {:induction false} DigitsValueOfDecimal(n: nat)
    ensures DigitsValue(Decimal(n)) == n
  {
    var s := Decimal(n);
    if n >= 10 {
      DigitsValueOfDecimal(n / 10);
      assert s[..|s| - 1] == Decimal(n / 10);
      assert DigitValue(DigitChar(n % 10)) == n % 10;
    } else {
      assert s[..|s| - 1] == [];
    }
  }

  /** `parseInt` reads back the numeral of `n`, whatever non-digit text follows it. */
  lemma {:induction false} ParseIntOfDecimal(n: nat, rest: string)
    requires rest == [] || !IsDigit(rest[0])
    ensures ParseInt(Decimal(n) + rest) == Some(n)
  {
    var s := Decimal(n) + rest;
    assert s[0] == Decimal(n)[0];
    assert TrimStart(s) == s;
    DigitPrefixOfNumeral(Decimal(n), rest);
    DigitsValueOfDecimal(n);
  }

  /** The first nonce tag after a prefix without nonce tags is found, whatever follows. */
  lemma {:induction false} FindNonceTagAfter(pre: seq<seq<string>>, tag: seq<string>, post: seq<seq<string>>)
    requires forall i | 0 <= i < |pre| :: !IsNonceTag(pre[i])
    requires IsNonceTag(tag)
    ensures FindNonceTag(pre + [tag] + post) == Some(|pre|)
  {
    var tags := pre + [tag] + post;
    assert tags[|pre|] == tag;
    assert forall i | 0 <= i < |pre| :: tags[i] == pre[i];
  }

  /** Only the first nonce tag matters: tags before it without "nonce" and any tags
      after it, including well-formed nonce tags, do not change the result. */
  lemma {:induction false} OnlyFirstNonceTagMatters(count: nat, pre: seq<seq<string>>, tag: seq<string>,
      post: seq<seq<string>>)
    requires forall i | 0 <= i < |pre| :: !IsNonceTag(pre[i])
    requires IsNonceTag(tag)
    ensures VerifyPow(count, pre + [tag] + post) == VerifyPow(count, [tag])
  {
    FindNonceTagAfter(pre, tag, post);
    FindNonceTagAfter([], tag, []);
    assert [] + [tag] + [] == [tag];
    assert (pre + [tag] + post)[|pre|] == tag;
  }

  /** A first nonce tag with fewer than three elements gives 0, even when a later
      nonce tag is well-formed. */
  lemma {:induction false} ShortFirstNonceTagGivesZero(count: nat, pre: seq<seq<string>>, tag: seq<string>,
      post: seq<seq<string>>)
    requires forall i | 0 <= i < |pre| :: !IsNonceTag(pre[i])
    requires IsNonceTag(tag) && |tag| < 3
    ensures VerifyPow(count, pre + [tag] + post) == Num(0)
  {
    FindNonceTagAfter(pre, tag, post);
    assert (pre + [tag] + post)[|pre|] == tag;
  }

  /** A first nonce tag declaring target `d` in decimal gives `min(count, d)`: at
      most the hash's count and at most the declared target. */
  lemma {:induction false} DecimalTargetIsClamped(count: nat, pre: seq<seq<string>>, nonce: string, d: nat,
      extra: seq<string>, post: seq<seq<string>>)
    requires forall i | 0 <= i < |pre| :: !IsNonceTag(pre[i])
    ensures var r := VerifyPow(count, pre + [["nonce", nonce, Decimal(d)] + extra] + post);
      r == Num(Min(count, d)) && r.value <= count && r.value <= d
  {
    var tag := ["nonce", nonce, Decimal(d)] + extra;
    assert IsNonceTag(tag) && tag[2] == Decimal(d);
    FindNonceTagAfter(pre, tag, post);
    assert (pre + [tag] + post)[|pre|] == tag;
    ParseIntOfDecimal(d, []);
    assert Decimal(d) + [] == Decimal(d);
  }
}
