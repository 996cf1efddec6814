/** The human-shareable order reference `SS-XXXXXX` of
    `src/app/api/orders/route.ts`: six characters drawn from the digits and
    upper-case Latin letters. The random draw is an input. */
module FriendlyId {
  import opened Wrappers

  const Alphabet: string := "0123456789ABCDEFGHIJKLMNOPQRSTUVWXYZ"
  const Prefix: string := "SS-"
  const IdLength: nat := 6

  predicate InAlphabet(c: char) {
    ('0' <= c <= '9') || ('A' <= c <= 'Z')
  }

  /** The `^SS-[0-9A-Z]{6}$` shape. */
  predicate IsFriendlyId(s: string) {
    && |s| == |Prefix| + IdLength
    && s[..|Prefix|] == Prefix
    && forall i :: |Prefix| <= i < |s| ==> InAlphabet(s[i])
  }

  /** A draw of `customAlphabet(alphabet, 6)`: six positions in the alphabet. */
  predicate ValidDraw(draw: seq<nat>) {
    |draw| == IdLength && forall i :: 0 <= i < |draw| ==> draw[i] < |Alphabet|
  }

  /** The alphabet character at position `n`. */
  function SymbolAt(n: nat): (c: char)
    requires n < |Alphabet|
    ensures InAlphabet(c)
    ensures c == Alphabet[n]
  {
    if n < 10 then ('0' as int + n) as char else ('A' as int + n - 10) as char
  }

  /** The position of an alphabet character. */
  function IndexOf(c: char): (n: nat)
    requires InAlphabet(c)
    ensures n < |Alphabet| && SymbolAt(n) == c
  {
    if c <= '9' then (c as int - '0' as int) else (c as int - 'A' as int) + 10
  }

  function Symbols(draw: seq<nat>): (s: string)
    requires forall i :: 0 <= i < |draw| ==> draw[i] < |Alphabet|
    ensures |s| == |draw|
    ensures forall i :: 0 <= i < |s| ==> s[i] == Alphabet[draw[i]] && InAlphabet(s[i])
  {
    seq(|draw|, i requires 0 <= i < |draw| => SymbolAt(draw[i]))
  }

  /** `SS-${generateFriendlyId()}`. */
  function Generate(draw: seq<nat>): (s: string)
    requires ValidDraw(draw)
    ensures IsFriendlyId(s)
    ensures forall i :: 0 <= i < IdLength ==> s[|Prefix| + i] == Alphabet[draw[i]]
  {
    var s := Prefix + Symbols(draw);
    assert s[..|Prefix|] == Prefix;
    s
  }

  /** The alphabet positions of a string of alphabet characters. */
  function IndicesOf(sym: string): (d: seq<nat>)
    requires forall i :: 0 <= i < |sym| ==> InAlphabet(sym[i])
    ensures |d| == |sym|
    ensures forall i :: 0 <= i < |d| ==> d[i] < |Alphabet| && SymbolAt(d[i]) == sym[i]
  {
    if |sym| == 0 then [] else [IndexOf(sym[0])] + IndicesOf(sym[1..])
  }

  function Positions(s: string): (d: seq<nat>)
    requires IsFriendlyId(s)
    ensures ValidDraw(d)
    ensures forall i :: 0 <= i < IdLength ==> SymbolAt(d[i]) == s[|Prefix| + i]
  {
    IndicesOf(s[|Prefix|..])
  }

  /** Reads the draw back out of a friendly id; `None` for any other string. */
  function Parse(s: string): (r: Option<seq<nat>>)
    ensures r.Some? <==> IsFriendlyId(s)
    ensures r.Some? ==> ValidDraw(r.value)
  {
    if IsFriendlyId(s) then Some(Positions(s)) else None
  }

  /** Each alphabet position holds a different character. */
  lemma SymbolAtInjective(a: nat, b: nat)
    requires a < |Alphabet| && b < |Alphabet|
    requires SymbolAt(a) == SymbolAt(b)
    ensures a == b
  {
  }

  /** Parsing a generated id recovers the draw. */
  lemma ParseGenerate(draw: seq<nat>)
    requires ValidDraw(draw)
    ensures Parse(Generate(draw)) == Some(draw)
  {
    var s := Generate(draw);
    var d := Positions(s);
    forall i | 0 <= i < IdLength
      ensures d[i] == draw[i]
    {
      SymbolAtInjective(d[i], draw[i]);
    }
    assert d == draw;
  }

  /** Generating from a parsed id gives back the id. */
  lemma GenerateParse(s: string)
    requires IsFriendlyId(s)
    ensures Generate(Parse(s).value) == s
  {
    var g := Generate(Parse(s).value);
    assert g[..|Prefix|] == s[..|Prefix|];
    assert forall i :: |Prefix| <= i < |s| ==> g[i] == s[i];
  }
}
