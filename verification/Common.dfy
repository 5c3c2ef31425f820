/** Values shared by every component of the model. */
module Common {

  datatype Option<+T> = None | Some(value: T)

  datatype Family = Ipv4 | Ipv6

  /** An IP address, identified with its canonical text. */
  datatype IpAddr = V4(text: string) | V6(text: string) {
    function Family(): Family {
      if V4? then Ipv4 else Ipv6
    }

    predicate IsUnspecified() {
      text == if V4? then "0.0.0.0" else "::"
    }
  }

  /** An address or network in CIDR notation. */
  datatype Cidr = Cidr(addr: IpAddr, cidr: nat)

  function UnspecifiedLike(addr: IpAddr): IpAddr {
    if addr.V4? then V4("0.0.0.0") else V6("::")
  }

  function ToSet<T>(s: seq<T>): (r: set<T>) {
    set x | x in s
  }

  lemma ToSetAppend<T>(s: seq<T>, x: T)
    ensures ToSet(s + [x]) == ToSet(s) + {x}
  {
  }

  function Map<A, B>(f: A -> B, s: seq<A>): (r: seq<B>)
    ensures |r| == |s|
    ensures forall i :: 0 <= i < |s| ==> r[i] == f(s[i])
  {
    seq(|s|, i requires 0 <= i < |s| => f(s[i]))
  }

  /** `str::to_ascii_lowercase`, one character at a time. */
  function LowerChar(c: char): char {
    if 'A' <= c <= 'Z' then (c as int - 'A' as int + 'a' as int) as char else c
  }

  function Lower(s: string): (r: string)
    ensures |r| == |s|
    ensures forall i :: 0 <= i < |s| ==> r[i] == LowerChar(s[i])
  {
    Map(LowerChar, s)
  }

  /** Decimal text of a number. */
  function Decimal(n: nat): string {
    if n < 10 then [('0' as int + n) as char] else Decimal(n / 10) + Decimal(n % 10)
  }

  /** `char::is_whitespace`: the Unicode White_Space property. */
  predicate IsWhitespace(c: char) {
    || '\t' <= c <= '\r' || c == ' '
    || c == '\U{85}' || c == '\U{A0}' || c == '\U{1680}'
    || '\U{2000}' <= c <= '\U{200A}'
    || c == '\U{2028}' || c == '\U{2029}' || c == '\U{202F}' || c == '\U{205F}' || c == '\U{3000}'
  }

  function TrimStart(s: string): (r: string)
    ensures |r| <= |s|
  {
    if |s| > 0 && IsWhitespace(s[0]) then TrimStart(s[1..]) else s
  }

  function TrimEnd(s: string): (r: string)
    ensures |r| <= |s|
  {
    if |s| > 0 && IsWhitespace(s[|s| - 1]) then TrimEnd(s[..|s| - 1]) else s
  }

  function Trim(s: string): (r: string)
    ensures |r| <= |s|
  {
    TrimEnd(TrimStart(s))
  }

  /** The pieces that are not blank, trimmed. */
  function TrimmedItems(pieces: seq<string>): seq<string> {
    if |pieces| == 0 then []
    else (if Trim(pieces[0]) == "" then [] else [Trim(pieces[0])]) + TrimmedItems(pieces[1..])
  }

  const U64_MAX := 0xFFFF_FFFF_FFFF_FFFF
}
