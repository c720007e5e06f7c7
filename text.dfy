/** The Option wrapper used for JavaScript's `undefined`/`null` values. */
module Wrappers {
  datatype Option<+T> = None | Some(value: T)
}

/**
 * String helpers that the handler and the page rely on: ASCII case mapping
 * (`toLowerCase`, `toUpperCase`), `Array.prototype.join`, `String.prototype.split`
 * with a one-character separator, and the two percent-encodings the handler uses
 * (`encodeURIComponent` and the form encoding behind `URLSearchParams.toString`).
 */
module Text {

  predicate IsUpperAscii(c: char) { 'A' <= c <= 'Z' }
  predicate IsLowerAscii(c: char) { 'a' <= c <= 'z' }
  predicate IsDigitAscii(c: char) { '0' <= c <= '9' }
  predicate IsAlnumAscii(c: char) { IsUpperAscii(c) || IsLowerAscii(c) || IsDigitAscii(c) }

  function LowerChar(c: char): char
  {
    if IsUpperAscii(c) then (c as int + 32) as char else c
  }

  function UpperChar(c: char): char
  {
    if IsLowerAscii(c) then (c as int - 32) as char else c
  }

  /** `toLowerCase` on the ASCII letters. */
  function ToLower(s: string): (r: string)
    ensures |r| == |s|
    ensures forall i :: 0 <= i < |r| ==> !IsUpperAscii(r[i])
    ensures forall i :: 0 <= i < |s| && !IsUpperAscii(s[i]) ==> r[i] == s[i]
    ensures forall i :: 0 <= i < |s| && IsUpperAscii(s[i]) ==> r[i] as int == s[i] as int + 32
  {
    seq(|s|, i requires 0 <= i < |s| => LowerChar(s[i]))
  }

  /** `toUpperCase` on the ASCII letters. */
  function ToUpper(s: string): (r: string)
    ensures |r| == |s|
    ensures forall i :: 0 <= i < |r| ==> !IsLowerAscii(r[i])
    ensures forall i :: 0 <= i < |s| && !IsLowerAscii(s[i]) ==> r[i] == s[i]
    ensures forall i :: 0 <= i < |s| && IsLowerAscii(s[i]) ==> r[i] as int == s[i] as int - 32
  {
    seq(|s|, i requires 0 <= i < |s| => UpperChar(s[i]))
  }

  /** A string with no upper-case ASCII letter is its own lower-case form, and survives a trip through upper case. */
  lemma LowerOfLowercase(s: string)
    requires forall i :: 0 <= i < |s| ==> !IsUpperAscii(s[i])
    ensures ToLower(s) == s
    ensures ToLower(ToUpper(s)) == s
  {
  }

  /** `parts.join(sep)`: the parts with `sep` between neighbours; `[].join(sep)` is empty. */
  function Join(parts: seq<string>, sep: string): string
  {
    if |parts| == 0 then ""
    else if |parts| == 1 then parts[0]
    else parts[0] + sep + Join(parts[1..], sep)
  }

  /** Joining one more part appends the separator and that part. */
  lemma {:induction false} JoinSnoc(parts: seq<string>, last: string, sep: string)
    requires |parts| >= 1
    ensures Join(parts + [last], sep) == Join(parts, sep) + sep + last
  {
    if |parts| == 1 {
      assert (parts + [last])[1..] == [last];
    } else {
      assert (parts + [last])[1..] == parts[1..] + [last];
      JoinSnoc(parts[1..], last, sep);
    }
  }

  /** A join starts with its first part. */
  lemma {:induction false} JoinStartsWithHead(parts: seq<string>, sep: string)
    requires |parts| >= 1
    ensures parts[0] <= Join(parts, sep)
  {
  }

  /** A join of two or more parts starts with the first two and the separator between them. */
  lemma JoinStartsWithTwo(parts: seq<string>, sep: string)
    requires |parts| >= 2
    ensures parts[0] + sep + parts[1] <= Join(parts, sep)
  {
    JoinStartsWithHead(parts[1..], sep);
  }

  /** The length of a join: every part plus one separator between each pair of neighbours. */
  function TotalLength(parts: seq<string>): nat
  {
    if |parts| == 0 then 0 else |parts[0]| + TotalLength(parts[1..])
  }

  lemma {:induction false} JoinLength(parts: seq<string>, sep: string)
    requires |parts| >= 1
    ensures |Join(parts, sep)| == TotalLength(parts) + (|parts| - 1) * |sep|
  {
    if |parts| > 1 {
      JoinLength(parts[1..], sep);
    }
  }

  /**
   * `s.split(c)` for a one-character separator: the maximal pieces between
   * occurrences of `c`; the empty string splits into one empty piece.
   */
  function Split(s: string, c: char): (parts: seq<string>)
    ensures |parts| >= 1
    ensures forall i :: 0 <= i < |parts| ==> c !in parts[i]
    decreases |s|
  {
    if |s| == 0 then [""]
    else
      var rest := Split(s[1..], c);
      if s[0] == c then [""] + rest
      else [[s[0]] + rest[0]] + rest[1..]
  }

  /** Splitting and re-joining on the same character gives back the string. */
  lemma {:induction false} JoinSplit(s: string, c: char)
    ensures Join(Split(s, c), [c]) == s
    decreases |s|
  {
    if |s| > 0 {
      var rest := Split(s[1..], c);
      JoinSplit(s[1..], c);
      if s[0] == c {
        assert ([""] + rest)[1..] == rest;
      } else {
        var parts := [[s[0]] + rest[0]] + rest[1..];
        assert parts[1..] == rest[1..];
        if |rest| > 1 {
          assert Join(rest, [c]) == rest[0] + [c] + Join(rest[1..], [c]);
        }
        assert s == [s[0]] + s[1..];
      }
    }
  }

  /** A string without the separator is a single piece. */
  lemma {:induction false} SplitNoSeparator(s: string, c: char)
    requires c !in s
    ensures Split(s, c) == [s]
    decreases |s|
  {
    if |s| > 0 {
      assert c !in s[1..];
      SplitNoSeparator(s[1..], c);
      assert s == [s[0]] + s[1..];
    }
  }

  /** A separator after a separator-free prefix cuts exactly there. */
  lemma {:induction false} SplitAtFirst(a: string, b: string, c: char)
    requires c !in a
    ensures Split(a + [c] + b, c) == [a] + Split(b, c)
    decreases |a|
  {
    var s := a + [c] + b;
    if |a| == 0 {
      assert s == [c] + b;
      assert s[1..] == b;
    } else {
      assert s[1..] == a[1..] + [c] + b;
      assert c !in a[1..];
      SplitAtFirst(a[1..], b, c);
      assert [a[0]] + a[1..] == a;
    }
  }

  /** The separator occurs exactly when splitting yields more than one part. */
  lemma {:induction false} SeveralPartsIffSeparator(s: string, c: char)
    ensures |Split(s, c)| >= 2 <==> c in s
    decreases |s|
  {
    if |s| > 0 {
      SeveralPartsIffSeparator(s[1..], c);
      assert s == [s[0]] + s[1..];
    }
  }

  /** Joining separator-free parts and splitting again gives back the parts. */
  lemma {:induction false} SplitJoin(parts: seq<string>, c: char)
    requires |parts| >= 1
    requires forall i :: 0 <= i < |parts| ==> c !in parts[i]
    ensures Split(Join(parts, [c]), c) == parts
  {
    if |parts| == 1 {
      SplitNoSeparator(parts[0], c);
    } else {
      SplitJoin(parts[1..], c);
      SplitAtFirst(parts[0], Join(parts[1..], [c]), c);
      assert [parts[0]] + parts[1..] == parts;
    }
  }

  // ---------------------------------------------------------------------------
  // Percent-encoding

  /** Characters `encodeURIComponent` leaves as they are. */
  predicate UriUnreserved(c: char)
  {
    IsAlnumAscii(c) || c in "-_.!~*'()"
  }

  /** Characters the form encoding of `URLSearchParams` leaves as they are. */
  predicate FormUnreserved(c: char)
  {
    IsAlnumAscii(c) || c in "*-._"
  }

  function HexDigit(n: int): char
    requires 0 <= n < 16
  {
    "0123456789ABCDEF"[n]
  }

  predicate IsHexDigit(c: char)
  {
    IsDigitAscii(c) || 'A' <= c <= 'F' || 'a' <= c <= 'f'
  }

  function HexValue(c: char): (n: int)
    requires IsHexDigit(c)
    ensures 0 <= n < 16
  {
    if IsDigitAscii(c) then c as int - '0' as int
    else if 'A' <= c <= 'F' then c as int - 'A' as int + 10
    else c as int - 'a' as int + 10
  }

  lemma HexRoundTrip(n: int)
    requires 0 <= n < 16
    ensures IsHexDigit(HexDigit(n)) && HexValue(HexDigit(n)) == n
  {
  }

  /**
   * The escape of one character: kept if unreserved, `+` for a space in the form
   * encoding, and `%XX` (upper-case hex) for every other ASCII character.
   * Characters outside ASCII are kept unchanged (their UTF-8 bytes are not modelled).
   */
  function EscapeChar(c: char, form: bool): string
  {
    if (if form then FormUnreserved(c) else UriUnreserved(c)) then [c]
    else if form && c == ' ' then "+"
    else if c as int < 128 then ['%', HexDigit(c as int / 16), HexDigit(c as int % 16)]
    else [c]
  }

  function Escape(s: string, form: bool): string
  {
    if |s| == 0 then "" else EscapeChar(s[0], form) + Escape(s[1..], form)
  }

  /** `encodeURIComponent`. */
  function EncodeUriComponent(s: string): string
  {
    Escape(s, false)
  }

  /** The form encoding `URLSearchParams.toString` applies to names and values. */
  function FormEncode(s: string): string
  {
    Escape(s, true)
  }

  /** The inverse of `Escape`: `%XX` becomes the character, and `+` a space in the form encoding. */
  function Unescape(s: string, form: bool): string
    decreases |s|
  {
    if |s| == 0 then ""
    else if s[0] == '%' && |s| >= 3 && IsHexDigit(s[1]) && IsHexDigit(s[2]) then
      [(HexValue(s[1]) * 16 + HexValue(s[2])) as char] + Unescape(s[3..], form)
    else if form && s[0] == '+' then " " + Unescape(s[1..], form)
    else [s[0]] + Unescape(s[1..], form)
  }

  /** A character other than `%` and `+` decodes to itself. */
  lemma KeptThenUnescape(c: char, rest: string, form: bool)
    requires c != '%' && c != '+'
    ensures Unescape([c] + rest, form) == [c] + Unescape(rest, form)
  {
    assert ([c] + rest)[1..] == rest;
  }

  /** A `%XX` triple decodes to the character it encodes. */
  lemma PercentThenUnescape(c: char, rest: string, form: bool)
    requires c as int < 128
    ensures Unescape(['%', HexDigit(c as int / 16), HexDigit(c as int % 16)] + rest, form) == [c] + Unescape(rest, form)
  {
    var s := ['%', HexDigit(c as int / 16), HexDigit(c as int % 16)] + rest;
    HexRoundTrip(c as int / 16);
    HexRoundTrip(c as int % 16);
    assert s[1] == HexDigit(c as int / 16) && s[2] == HexDigit(c as int % 16);
    assert HexValue(s[1]) * 16 + HexValue(s[2]) == c as int;
    assert s[3..] == rest;
  }

  lemma EscapeCharThenUnescape(c: char, rest: string, form: bool)
    ensures Unescape(EscapeChar(c, form) + rest, form) == [c] + Unescape(rest, form)
  {
    if (if form then FormUnreserved(c) else UriUnreserved(c)) {
      KeptThenUnescape(c, rest, form);
    } else if form && c == ' ' {
      assert ("+" + rest)[1..] == rest;
    } else if c as int < 128 {
      PercentThenUnescape(c, rest, form);
    } else {
      KeptThenUnescape(c, rest, form);
    }
  }

  /** Decoding an escaped string gives back the string, in either encoding. */
  lemma {:induction false} UnescapeEscape(s: string, form: bool)
    ensures Unescape(Escape(s, form), form) == s
  {
    if |s| > 0 {
      var tail := Escape(s[1..], form);
      assert Escape(s, form) == EscapeChar(s[0], form) + tail;
      EscapeCharThenUnescape(s[0], tail, form);
      UnescapeEscape(s[1..], form);
      assert s == [s[0]] + s[1..];
    }
  }

  /**
   * The form encoding never emits an ASCII character that it escapes and that is
   * neither `%`, `+` nor a hex digit, such as `&` or `=`.
   */
  lemma {:induction false} FormEncodeAvoids(s: string, c: char)
    requires c as int < 128 && !FormUnreserved(c) && !IsHexDigit(c) && c != '%' && c != '+'
    ensures c !in FormEncode(s)
  {
    if |s| > 0 {
      FormEncodeAvoids(s[1..], c);
      assert FormEncode(s) == EscapeChar(s[0], true) + FormEncode(s[1..]);
      if !FormUnreserved(s[0]) && s[0] != ' ' && s[0] as int < 128 {
        var e := EscapeChar(s[0], true);
        assert e == ['%', HexDigit(s[0] as int / 16), HexDigit(s[0] as int % 16)];
        HexRoundTrip(s[0] as int / 16);
        HexRoundTrip(s[0] as int % 16);
      }
    }
  }

  /** A string of unreserved characters is its own escape, in either encoding. */
  lemma {:induction false} EscapeUnreserved(s: string, form: bool)
    requires forall i :: 0 <= i < |s| ==> (if form then FormUnreserved(s[i]) else UriUnreserved(s[i]))
    ensures Escape(s, form) == s
  {
    if |s| > 0 {
      EscapeUnreserved(s[1..], form);
      assert s == [s[0]] + s[1..];
    }
  }
}
