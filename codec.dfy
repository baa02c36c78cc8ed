/**
 * The text form of records kept in storage. The application writes records
 * with JSON.stringify and reads them with JSON.parse; this module stands in
 * for both with a self-delimiting encoding of a list of text fields (each
 * character is preceded by '1', each field ends with '0'). What the
 * components rely on is kept: decoding an encoded record gives it back,
 * and text that is not an encoding is reported as malformed.
 */
module Codec {
  import opened Wrappers

  function EncodeField(f: string): (r: string)
    ensures |r| == 2 * |f| + 1
  {
    if f == [] then "0" else ['1', f[0]] + EncodeField(f[1..])
  }

  /** Reads one field off the front of `s`; returns it with the rest of `s`. */
  function DecodeField(s: string): (r: Option<(string, string)>)
    ensures r.Some? ==> |r.value.1| < |s|
  {
    if s == [] then None
    else if s[0] == '0' then Some(("", s[1..]))
    else if s[0] == '1' && |s| >= 2 then
      match DecodeField(s[2..])
      case None => None
      case Some((f, rest)) => Some(([s[1]] + f, rest))
    else None
  }

  lemma {:induction false} DecodeEncodeField(f: string, rest: string)
    ensures DecodeField(EncodeField(f) + rest) == Some((f, rest))
  {
    if f != [] {
      DecodeEncodeField(f[1..], rest);
      var s := EncodeField(f) + rest;
      assert s[2..] == EncodeField(f[1..]) + rest;
      assert [f[0]] + f[1..] == f;
    }
  }

  /** A field read off the front of `s`, re-encoded in front of the rest, gives `s` back. */
  lemma {:induction false} EncodeDecodeField(s: string)
    requires DecodeField(s).Some?
    ensures EncodeField(DecodeField(s).value.0) + DecodeField(s).value.1 == s
  {
    if s[0] == '1' {
      EncodeDecodeField(s[2..]);
      var f := DecodeField(s[2..]).value.0;
      assert ([s[1]] + f)[1..] == f;
      assert s == ['1', s[1]] + s[2..];
    }
  }

  function EncodeFields(fs: seq<string>): string
  {
    if fs == [] then "" else EncodeField(fs[0]) + EncodeFields(fs[1..])
  }

  function DecodeFields(s: string): Option<seq<string>>
    decreases |s|
  {
    if s == [] then Some([])
    else
      match DecodeField(s)
      case None => None
      case Some((f, rest)) =>
        match DecodeFields(rest)
        case None => None
        case Some(fs) => Some([f] + fs)
  }

  /** Decoding an encoded list of fields gives the list back. */
  lemma {:induction false} DecodeEncodeFields(fs: seq<string>)
    ensures DecodeFields(EncodeFields(fs)) == Some(fs)
  {
    if fs != [] {
      DecodeEncodeField(fs[0], EncodeFields(fs[1..]));
      DecodeEncodeFields(fs[1..]);
      assert [fs[0]] + fs[1..] == fs;
    }
  }

  /** Text that decodes is exactly the encoding of what it decodes to: anything else is malformed. */
  lemma {:induction false} EncodeDecodeFields(s: string)
    requires DecodeFields(s).Some?
    ensures EncodeFields(DecodeFields(s).value) == s
    decreases |s|
  {
    if s != [] {
      var (f, rest) := DecodeField(s).value;
      EncodeDecodeField(s);
      EncodeDecodeFields(rest);
      var fs := DecodeFields(rest).value;
      assert ([f] + fs)[1..] == fs;
    }
  }

  /** Encoding is one-to-one: distinct records never share a stored text. */
  lemma EncodeFieldsInjective(fs: seq<string>, gs: seq<string>)
    requires EncodeFields(fs) == EncodeFields(gs)
    ensures fs == gs
  {
    DecodeEncodeFields(fs);
    DecodeEncodeFields(gs);
  }

  function BoolText(b: bool): string
  {
    if b then "true" else "false"
  }

  function ParseBool(s: string): (r: Option<bool>)
    ensures r.Some? ==> BoolText(r.value) == s
  {
    if s == "true" then Some(true) else if s == "false" then Some(false) else None
  }

  lemma ParseBoolText(b: bool)
    ensures ParseBool(BoolText(b)) == Some(b)
  {
  }

  function DigitChar(d: nat): (c: char)
    requires d < 10
    ensures '0' <= c <= '9'
  {
    ('0' as int + d) as char
  }

  /** The decimal text of a number, without leading zeros. */
  function Decimal(n: nat): (r: string)
    ensures |r| >= 1
    ensures forall i :: 0 <= i < |r| ==> '0' <= r[i] <= '9'
    ensures |r| > 1 ==> r[0] != '0'
  {
    if n < 10 then [DigitChar(n)] else Decimal(n / 10) + [DigitChar(n % 10)]
  }

  function DigitsValue(s: string): nat
    requires forall i :: 0 <= i < |s| ==> '0' <= s[i] <= '9'
  {
    if s == [] then 0 else DigitsValue(s[..|s| - 1]) * 10 + (s[|s| - 1] as int - '0' as int)
  }

  /** A number read from decimal text; None when the text is not digits. */
  function ParseNat(s: string): Option<nat>
  {
    if s != [] && forall i :: 0 <= i < |s| ==> '0' <= s[i] <= '9' then Some(DigitsValue(s)) else None
  }

  lemma {:induction false} ParseDecimal(n: nat)
    ensures ParseNat(Decimal(n)) == Some(n)
  {
    if n >= 10 {
      ParseDecimal(n / 10);
      var s := Decimal(n);
      assert s[..|s| - 1] == Decimal(n / 10);
      assert s[|s| - 1] as int - '0' as int == n % 10;
      assert DigitsValue(s) == DigitsValue(Decimal(n / 10)) * 10 + n % 10;
    }
  }
}
