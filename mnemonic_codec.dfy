/**
 * The stored-mnemonic codec of the chain provider: `btoa` on the way into
 * local storage and `atob` on the way out.
 *
 * `btoa` is base64 over the string's code units, each of which must be at
 * most 0xFF. `atob` is the forgiving-base64 decode of the WHATWG Infra
 * standard: ASCII whitespace is dropped, one or two trailing `=` are dropped
 * when the length is a multiple of four, a remaining length of 4k+1 or any
 * character outside the alphabet fails, and leftover bits of a final partial
 * group are discarded.
 */
module MnemonicCodec {
  import opened Wrappers

  const INVALID_STORED_MNEMONIC := "Invalid stored mnemonic"
  const INVALID_CHARACTER := "InvalidCharacterError"

  predicate Latin1(s: seq<char>) {
    forall i :: 0 <= i < |s| ==> s[i] as int < 256
  }

  predicate Sextet(v: int) { 0 <= v < 64 }

  predicate AllSextets(vs: seq<int>) {
    forall i :: 0 <= i < |vs| ==> Sextet(vs[i])
  }

  /** The base64 alphabet: `A`-`Z`, `a`-`z`, `0`-`9`, `+`, `/`. */
  function SextetChar(v: int): (c: char)
    requires Sextet(v)
    ensures IsAlphabet(c)
  {
    if v < 26 then ('A' as int + v) as char
    else if v < 52 then ('a' as int + v - 26) as char
    else if v < 62 then ('0' as int + v - 52) as char
    else if v == 62 then '+'
    else '/'
  }

  predicate IsAlphabet(c: char) {
    ('A' <= c <= 'Z') || ('a' <= c <= 'z') || ('0' <= c <= '9') || c == '+' || c == '/'
  }

  function CharSextet(c: char): (v: int)
    requires IsAlphabet(c)
    ensures Sextet(v) && SextetChar(v) == c
  {
    if 'A' <= c <= 'Z' then c as int - 'A' as int
    else if 'a' <= c <= 'z' then c as int - 'a' as int + 26
    else if '0' <= c <= '9' then c as int - '0' as int + 52
    else if c == '+' then 62
    else 63
  }

  lemma SextetCharInverse(v: int)
    requires Sextet(v)
    ensures CharSextet(SextetChar(v)) == v
  {
  }

  /** Three code units as four sextets. */
  function GroupSextets(b0: int, b1: int, b2: int): (vs: seq<int>)
    requires 0 <= b0 < 256 && 0 <= b1 < 256 && 0 <= b2 < 256
    ensures |vs| == 4 && AllSextets(vs)
  {
    [b0 / 4, (b0 % 4) * 16 + b1 / 16, (b1 % 16) * 4 + b2 / 64, b2 % 64]
  }

  /** Four sextets as three code units. */
  function GroupUnits(v0: int, v1: int, v2: int, v3: int): (s: seq<char>)
    requires Sextet(v0) && Sextet(v1) && Sextet(v2) && Sextet(v3)
    ensures |s| == 3 && Latin1(s)
  {
    [(v0 * 4 + v1 / 16) as char, ((v1 % 16) * 16 + v2 / 4) as char, ((v2 % 4) * 64 + v3) as char]
  }

  /** The sextets of a Latin-1 string, three code units to four sextets, a final partial group unpadded. */
  function Sextets(s: seq<char>): (vs: seq<int>)
    requires Latin1(s)
    ensures AllSextets(vs)
    ensures |vs| % 4 == (if |s| % 3 == 0 then 0 else |s| % 3 + 1)
    decreases |s|
  {
    if |s| == 0 then []
    else if |s| == 1 then GroupSextets(s[0] as int, 0, 0)[..2]
    else if |s| == 2 then GroupSextets(s[0] as int, s[1] as int, 0)[..3]
    else
      assert Latin1(s[3..]);
      var g, rest := GroupSextets(s[0] as int, s[1] as int, s[2] as int), Sextets(s[3..]);
      assert |s[3..]| % 3 == |s| % 3 && |g + rest| % 4 == |rest| % 4;
      assert AllSextets(g + rest) by {
        forall i | 0 <= i < |g + rest| ensures Sextet((g + rest)[i]) {
          if i < 4 { assert (g + rest)[i] == g[i]; } else { assert (g + rest)[i] == rest[i - 4]; }
        }
      }
      g + rest
  }

  function Padding(n: nat): string {
    if n % 3 == 1 then "==" else if n % 3 == 2 then "=" else ""
  }

  function SextetString(vs: seq<int>): (t: string)
    requires AllSextets(vs)
    ensures |t| == |vs| && forall i :: 0 <= i < |t| ==> IsAlphabet(t[i])
  {
    seq(|vs|, i requires 0 <= i < |vs| => SextetChar(vs[i]))
  }

  /** The base64 encoding of a Latin-1 string, padded to a multiple of four characters. */
  function Encode(s: seq<char>): (t: string)
    requires Latin1(s)
    ensures |t| % 4 == 0
  {
    SextetString(Sextets(s)) + Padding(|s|)
  }

  /** `btoa`: fails when some code unit is above 0xFF. */
  function Btoa(s: seq<char>): (r: Result<string>)
    ensures r.Err? <==> exists i :: 0 <= i < |s| && s[i] as int >= 256
    ensures r.Err? ==> r.error == INVALID_CHARACTER
  {
    if Latin1(s) then Ok(Encode(s)) else Err(INVALID_CHARACTER)
  }

  /** ASCII whitespace: TAB, LF, FF, CR and SPACE. */
  predicate AsciiSpace(c: char) {
    c == '\t' || c == '\n' || c == '\U{C}' || c == '\r' || c == ' '
  }

  function StripAsciiSpace(s: string): (t: string)
    ensures forall i :: 0 <= i < |t| ==> !AsciiSpace(t[i])
    ensures |t| <= |s|
  {
    if |s| == 0 then []
    else if AsciiSpace(s[0]) then StripAsciiSpace(s[1..])
    else [s[0]] + StripAsciiSpace(s[1..])
  }

  function DropPadding(d: string): string {
    if |d| % 4 != 0 then d
    else if |d| >= 2 && d[|d| - 2..] == "==" then d[..|d| - 2]
    else if |d| >= 1 && d[|d| - 1] == '=' then d[..|d| - 1]
    else d
  }

  /** Sextets back to code units; a final group of two or three sextets yields one or two units. */
  function DecodeSextets(vs: seq<int>): (s: seq<char>)
    requires AllSextets(vs) && |vs| % 4 != 1
    ensures Latin1(s)
    decreases |vs|
  {
    if |vs| == 0 then []
    else if |vs| == 2 then GroupUnits(vs[0], vs[1], 0, 0)[..1]
    else if |vs| == 3 then GroupUnits(vs[0], vs[1], vs[2], 0)[..2]
    else
      assert AllSextets(vs[4..]);
      GroupUnits(vs[0], vs[1], vs[2], vs[3]) + DecodeSextets(vs[4..])
  }

  /** `atob` as forgiving-base64 decode. */
  function Atob(s: string): (r: Result<seq<char>>)
    ensures r.Err? ==> r.error == INVALID_CHARACTER
    ensures r.Err? <==>
      var d := DropPadding(StripAsciiSpace(s));
      |d| % 4 == 1 || exists i :: 0 <= i < |d| && !IsAlphabet(d[i])
    ensures r.Ok? ==> Latin1(r.value)
  {
    var d := DropPadding(StripAsciiSpace(s));
    if |d| % 4 == 1 then Err(INVALID_CHARACTER)
    else if exists i :: 0 <= i < |d| && !IsAlphabet(d[i]) then Err(INVALID_CHARACTER)
    else Ok(DecodeSextets(seq(|d|, i requires 0 <= i < |d| => CharSextet(d[i]))))
  }

  /** `encodeMnemonic`. */
  function EncodeMnemonic(mnemonic: string): (r: Result<string>)
    ensures r == Btoa(mnemonic)
  {
    Btoa(mnemonic)
  }

  /** `decodeMnemonic`: any `atob` failure becomes "Invalid stored mnemonic". */
  function DecodeMnemonic(encoded: string): (r: Result<string>)
    ensures r.Err? <==> Atob(encoded).Err?
    ensures r.Err? ==> r.error == INVALID_STORED_MNEMONIC
    ensures r.Ok? ==> r.value == Atob(encoded).value
  {
    match Atob(encoded)
    case Ok(m) => Ok(m)
    case Err(_) => Err(INVALID_STORED_MNEMONIC)
  }

  lemma GroupRoundTrip(b0: int, b1: int, b2: int)
    requires 0 <= b0 < 256 && 0 <= b1 < 256 && 0 <= b2 < 256
    ensures var vs := GroupSextets(b0, b1, b2);
      GroupUnits(vs[0], vs[1], vs[2], vs[3]) == [b0 as char, b1 as char, b2 as char]
  {
  }

  /** Dropping trailing sextets only changes the units they feed. */
  lemma PartialGroupRoundTrip(b0: int, b1: int)
    requires 0 <= b0 < 256 && 0 <= b1 < 256
    ensures var vs := GroupSextets(b0, 0, 0);
      GroupUnits(vs[0], vs[1], 0, 0)[..1] == [b0 as char]
    ensures var vs := GroupSextets(b0, b1, 0);
      GroupUnits(vs[0], vs[1], vs[2], 0)[..2] == [b0 as char, b1 as char]
  {
    GroupRoundTrip(b0, 0, 0);
    GroupRoundTrip(b0, b1, 0);
  }

  lemma SextetsUnfold(s: seq<char>)
    requires Latin1(s) && |s| >= 3
    ensures Latin1(s[3..])
    ensures Sextets(s) == GroupSextets(s[0] as int, s[1] as int, s[2] as int) + Sextets(s[3..])
  {
  }

  lemma DecodeSextetsUnfold(g: seq<int>, rest: seq<int>)
    requires |g| == 4 && AllSextets(g) && AllSextets(rest) && |rest| % 4 != 1
    ensures AllSextets(g + rest) && |g + rest| % 4 != 1
    ensures DecodeSextets(g + rest) == GroupUnits(g[0], g[1], g[2], g[3]) + DecodeSextets(rest)
  {
    var vs := g + rest;
    assert vs[4..] == rest;
  }

  lemma {:induction false} DecodeSextetsRoundTrip(s: seq<char>)
    requires Latin1(s)
    ensures DecodeSextets(Sextets(s)) == s
    decreases |s|
  {
    if |s| == 0 {
    } else if |s| == 1 {
      PartialGroupRoundTrip(s[0] as int, 0);
    } else if |s| == 2 {
      PartialGroupRoundTrip(s[0] as int, s[1] as int);
    } else {
      var g := GroupSextets(s[0] as int, s[1] as int, s[2] as int);
      SextetsUnfold(s);
      var rest := Sextets(s[3..]);
      DecodeSextetsUnfold(g, rest);
      GroupRoundTrip(s[0] as int, s[1] as int, s[2] as int);
      DecodeSextetsRoundTrip(s[3..]);
      assert DecodeSextets(Sextets(s)) == [s[0], s[1], s[2]] + s[3..];
      FirstThree(s);
    }
  }

  lemma FirstThree(s: seq<char>)
    requires |s| >= 3
    ensures [s[0], s[1], s[2]] + s[3..] == s
  {
  }

  lemma StripNoSpace(t: string)
    requires forall i :: 0 <= i < |t| ==> !AsciiSpace(t[i])
    ensures StripAsciiSpace(t) == t
  {
    if |t| > 0 {
      StripNoSpace(t[1..]);
      assert t == [t[0]] + t[1..];
    }
  }

  /** An encoding holds no whitespace, so stripping whitespace leaves it as it is. */
  lemma EncodingHasNoSpace(s: seq<char>)
    requires Latin1(s)
    ensures StripAsciiSpace(Encode(s)) == Encode(s)
  {
    var body := SextetString(Sextets(s));
    var t := Encode(s);
    assert t == body + Padding(|s|);
    forall i | 0 <= i < |t| ensures !AsciiSpace(t[i]) {
      if i < |body| { assert t[i] == body[i] && IsAlphabet(body[i]); }
    }
    StripNoSpace(t);
  }

  /** Padding matched to the length of the sextet characters is exactly what `DropPadding` removes. */
  lemma DropPaddingOfPadded(body: string, n: nat)
    requires forall i :: 0 <= i < |body| ==> IsAlphabet(body[i])
    requires |body| % 4 == (if n % 3 == 0 then 0 else n % 3 + 1)
    ensures DropPadding(body + Padding(n)) == body
  {
    var t := body + Padding(n);
    if n % 3 == 1 {
      assert t[|t| - 2..] == "==";
      assert t[..|t| - 2] == body;
    } else if n % 3 == 2 {
      assert t[|t| - 2] == body[|body| - 1] && IsAlphabet(body[|body| - 1]);
      assert t[|t| - 2..] != "==";
      assert t[..|t| - 1] == body;
    } else if |body| > 0 {
      assert t == body;
      assert IsAlphabet(body[|body| - 1]) && IsAlphabet(body[|body| - 2]);
      assert body[|body| - 2..] != "==";
    }
  }

  /** Stripping whitespace and padding from an encoding leaves exactly its sextet characters. */
  lemma {:induction false} EncodingCore(s: seq<char>)
    requires Latin1(s)
    ensures DropPadding(StripAsciiSpace(Encode(s))) == SextetString(Sextets(s))
  {
    EncodingHasNoSpace(s);
    DropPaddingOfPadded(SextetString(Sextets(s)), |s|);
  }

  /** Reading the sextet characters back through the alphabet gives the sextets. */
  lemma SextetStringInverse(vs: seq<int>)
    requires AllSextets(vs)
    ensures var t := SextetString(vs);
      seq(|t|, i requires 0 <= i < |t| => CharSextet(t[i])) == vs
  {
    var t := SextetString(vs);
    forall i | 0 <= i < |vs| ensures CharSextet(t[i]) == vs[i] {
      SextetCharInverse(vs[i]);
    }
  }

  /** Round trip: every string `btoa` accepts is given back unchanged by `atob`. */
  lemma {:induction false} AtobInvertsBtoa(s: seq<char>)
    requires Btoa(s).Ok?
    ensures Atob(Btoa(s).value) == Ok(s)
  {
    EncodingCore(s);
    SextetStringInverse(Sextets(s));
    DecodeSextetsRoundTrip(s);
  }

  /** A stored mnemonic written by `encodeMnemonic` is read back unchanged. */
  lemma {:induction false} StoredMnemonicRoundTrip(mnemonic: string)
    requires EncodeMnemonic(mnemonic).Ok?
    ensures DecodeMnemonic(EncodeMnemonic(mnemonic).value) == Ok(mnemonic)
  {
    AtobInvertsBtoa(mnemonic);
  }
}
