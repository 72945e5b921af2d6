/**
 A reader of JSON text as RFC 8259 defines it (sections 3 to 7), without space between tokens. Reading
 what is printed gives the value back, so the canonical text means what it should, and says all of it.
 */
module JsonReader {
  import opened Wrappers
  import opened Identity
  import opened Lexicographic
  import opened CanonicalJson

  /** What was read and what follows it; None where the text is not JSON. */
  type Read<T> = Option<(T, string)>

  // ---------------------------------------------------------------------
  // Strings
  // ---------------------------------------------------------------------

  predicate IsHexDigit(c: char) {
    IsDigit(c) || 'a' <= c <= 'f' || 'A' <= c <= 'F'
  }

  function HexDigitValue(c: char): (d: nat)
    requires IsHexDigit(c)
    ensures d < 16
  {
    if IsDigit(c) then DigitValue(c) else if 'a' <= c then (c - 'a') as nat + 10 else (c - 'A') as nat + 10
  }

  function ReadHexPair(a: char, b: char): (n: nat)
    requires IsHexDigit(a) && IsHexDigit(b)
    ensures n < 0x100
  {
    HexDigitValue(a) * 16 + HexDigitValue(b)
  }

  /** Behind a backslash: `u` and four hexadecimal digits. */
  function ReadUnit(s: string): (r: Read<nat>)
    ensures r.Some? ==> r.value.0 < 0x10000 && |r.value.1| < |s|
  {
    if |s| >= 5 && s[0] == 'u' && IsHexDigit(s[1]) && IsHexDigit(s[2]) && IsHexDigit(s[3]) && IsHexDigit(s[4])
    then Some((ReadHexPair(s[1], s[2]) * 0x100 + ReadHexPair(s[3], s[4]), s[5..]))
    else None
  }

  predicate IsHigh(unit: nat) {
    0xd800 <= unit < 0xdc00
  }

  predicate IsLow(unit: nat) {
    0xdc00 <= unit < 0xe000
  }

  /** A code point beyond the first plane is written as a pair of surrogates; a lone one is no character. */
  function ReadCodePoint(s: string): (r: Read<char>)
    ensures r.Some? ==> |r.value.1| < |s|
  {
    match ReadUnit(s)
    case None => None
    case Some((unit, rest)) =>
      if IsHigh(unit) then
        if rest != "" && rest[0] == '\\' then
          match ReadUnit(rest[1..])
          case None => None
          case Some((low, end)) =>
            if IsLow(low) then Some(((0x10000 + (unit - 0xd800) * 1024 + (low - 0xdc00)) as char, end)) else None
        else None
      else if IsLow(unit) then None
      else Some((unit as char, rest))
  }

  /** The characters that a backslash and one more character stand for. */
  function Unescaped(x: char): Option<char> {
    if x == '\"' || x == '\\' || x == '/' then Some(x)
    else if x == 'b' then Some(8 as char)
    else if x == 'f' then Some(12 as char)
    else if x == 'n' then Some(10 as char)
    else if x == 'r' then Some(13 as char)
    else if x == 't' then Some(9 as char)
    else None
  }

  /** One character of a string; control characters must be escaped. */
  function ReadChar(s: string): (r: Read<char>)
    ensures r.Some? ==> |r.value.1| < |s|
  {
    if s == "" || s[0] < ' ' then None
    else if s[0] != '\\' then Some((s[0], s[1..]))
    else if |s| < 2 then None
    else if s[1] == 'u' then ReadCodePoint(s[1..])
    else if Unescaped(s[1]).Some? then Some((Unescaped(s[1]).value, s[2..]))
    else None
  }

  /** The rest of a string, from behind its opening quote to its closing one. */
  function ReadText(s: string): (r: Read<string>)
    ensures r.Some? ==> |r.value.1| < |s|
    decreases |s|
  {
    if s != "" && s[0] == '\"' then Some(("", s[1..]))
    else
      match ReadChar(s)
      case None => None
      case Some((c, rest)) =>
        match ReadText(rest)
        case None => None
        case Some((text, end)) => Some(([c] + text, end))
  }

  // ---------------------------------------------------------------------
  // Numbers
  // ---------------------------------------------------------------------

  /** How far the number characters reach. */
  function NumberLength(s: string): (n: nat)
    ensures n <= |s|
  {
    if s == "" || !IsNumberChar(s[0]) then 0 else 1 + NumberLength(s[1..])
  }

  /** Decimal digits without leading zeros. */
  function ReadNat(text: string): Option<nat> {
    match ReadLength(text + ":", 0)
    case None => None
    case Some((n, rest)) => if rest == "" && Decimal(n) == text then Some(n) else None
  }

  function ReadInt(text: string): Option<int> {
    var negative := text != "" && text[0] == '-';
    var n := ReadNat(if negative then text[1..] else text);
    if n.None? || (negative && n.value == 0) then None
    else
      var magnitude: int := n.value;
      Some(if negative then -magnitude else magnitude)
  }

  /** A number with a fraction or an exponent is kept as it is written. */
  function ReadNumber(s: string): (r: Read<Tree>)
    ensures r.Some? ==> |r.value.1| < |s|
  {
    var n := NumberLength(s);
    var text := s[..n];
    if n == 0 then None
    else if '.' in text || 'e' in text then Some((Float(text), s[n..]))
    else
      match ReadInt(text)
      case None => None
      case Some(i) => Some((Int(i), s[n..]))
  }

  // ---------------------------------------------------------------------
  // Values
  // ---------------------------------------------------------------------

  predicate StartsWith(s: string, word: string) {
    |word| <= |s| && s[..|word|] == word
  }

  function ReadValue(s: string): (r: Read<Tree>)
    ensures r.Some? ==> |r.value.1| < |s|
    decreases |s|, 0
  {
    if s == "" then None
    else if s[0] == 'n' then (if StartsWith(s, "null") then Some((Null, s[4..])) else None)
    else if s[0] == 't' then (if StartsWith(s, "true") then Some((Bool(true), s[4..])) else None)
    else if s[0] == 'f' then (if StartsWith(s, "false") then Some((Bool(false), s[5..])) else None)
    else if s[0] == '\"' then
      match ReadText(s[1..])
      case None => None
      case Some((text, end)) => Some((Str(text), end))
    else if s[0] == '[' then
      if |s| >= 2 && s[1] == ']' then Some((Arr([]), s[2..]))
      else
        match ReadItems(s[1..])
        case None => None
        case Some((items, end)) => Some((Arr(items), end))
    else if s[0] == '{' then
      if |s| >= 2 && s[1] == '}' then Some((Obj([]), s[2..]))
      else
        match ReadMembers(s[1..])
        case None => None
        case Some((fields, end)) => Some((Obj(fields), end))
    else ReadNumber(s)
  }

  /** One value at least, commas in between, and the closing bracket. */
  function ReadItems(s: string): (r: Read<seq<Tree>>)
    ensures r.Some? ==> |r.value.1| < |s|
    decreases |s|, 2
  {
    match ReadValue(s)
    case None => None
    case Some((first, rest)) =>
      if rest == "" then None
      else if rest[0] == ']' then Some(([first], rest[1..]))
      else if rest[0] == ',' then
        match ReadItems(rest[1..])
        case None => None
        case Some((others, end)) => Some(([first] + others, end))
      else None
  }

  function ReadMember(s: string): (r: Read<Member>)
    ensures r.Some? ==> |r.value.1| < |s|
    decreases |s|, 1
  {
    if s == "" || s[0] != '\"' then None
    else
      match ReadText(s[1..])
      case None => None
      case Some((key, rest)) =>
        if rest == "" || rest[0] != ':' then None
        else
          match ReadValue(rest[1..])
          case None => None
          case Some((value, end)) => Some((Keyed(key, value), end))
  }

  function ReadMembers(s: string): (r: Read<seq<Member>>)
    ensures r.Some? ==> |r.value.1| < |s|
    decreases |s|, 2
  {
    match ReadMember(s)
    case None => None
    case Some((first, rest)) =>
      if rest == "" then None
      else if rest[0] == '}' then Some(([first], rest[1..]))
      else if rest[0] == ',' then
        match ReadMembers(rest[1..])
        case None => None
        case Some((others, end)) => Some(([first] + others, end))
      else None
  }

  // ---------------------------------------------------------------------
  // What is printed is read back
  // ---------------------------------------------------------------------

  lemma HexIsRead(unit: nat, r: string)
    requires unit < 0x10000
    ensures ReadUnit("u" + Hex4(unit) + r) == Some((unit, r))
  {
    var h, s := Hex4(unit), "u" + Hex4(unit) + r;
    assert s[0] == 'u' && s[1] == h[0] && s[2] == h[1] && s[3] == h[2] && s[4] == h[3] && s[5..] == r;
    assert forall i :: 0 <= i < 4 ==> IsHexDigit(h[i]) && HexDigitValue(h[i]) == HexValue(h[i]);
  }

  lemma CodePointIsRead(c: char, r: string)
    requires UnicodeEscaped(c)
    ensures ReadChar(Escape(c) + r) == Some((c, r))
  {
    var s := Escape(c) + r;
    if c as int < 0x10000 {
      assert s[1..] == "u" + Hex4(c as int) + r;
      HexIsRead(c as int, r);
    } else {
      PairIsRead(c, r);
    }
  }

  lemma PairIsRead(c: char, r: string)
    requires c as int >= 0x10000
    ensures ReadChar(Escape(c) + r) == Some((c, r))
  {
    var low := "u" + Hex4(SecondUnit(c)) + r;
    PairSplit(c, r);
    HexIsRead(FirstUnit(c), "\\" + low);
    assert ("\\" + low)[1..] == low;
    HexIsRead(SecondUnit(c), r);
    UnitsMakeUp(c);
    assert ReadCodePoint((Escape(c) + r)[1..]) == Some((c, r));
  }

  lemma PairSplit(c: char, r: string)
    requires c as int >= 0x10000
    ensures var s := Escape(c) + r;
            && |s| >= 2 && s[0] == '\\' && s[1] == 'u'
            && s[1..] == "u" + Hex4(FirstUnit(c)) + ("\\" + ("u" + Hex4(SecondUnit(c)) + r))
  {
    PairedUnits(Hex4(FirstUnit(c)), Hex4(SecondUnit(c)), r);
  }

  lemma PairedUnits(u: string, v: string, r: string)
    ensures var s := "\\u" + u + "\\u" + v + r;
            && |s| >= 2 && s[0] == '\\' && s[1] == 'u'
            && s[1..] == "u" + u + ("\\" + ("u" + v + r))
  {
  }

  lemma UnitsMakeUp(c: char)
    requires c as int >= 0x10000
    ensures IsHigh(FirstUnit(c)) && IsLow(SecondUnit(c))
    ensures 0x10000 + (FirstUnit(c) - 0xd800) * 1024 + (SecondUnit(c) - 0xdc00) == c as int
  {
  }

  lemma CharIsRead(c: char, r: string)
    ensures ReadChar(Escape(c) + r) == Some((c, r))
  {
    if UnicodeEscaped(c) {
      CodePointIsRead(c, r);
    } else {
      var s := Escape(c) + r;
      assert s[0] == Escape(c)[0] && s[|Escape(c)|..] == r;
    }
  }

  /** Each character is printed as short as the format allows. */
  lemma EscapeIsShortest(c: char)
    ensures |Escape(c)| ==
            if exists x :: x != '/' && Unescaped(x) == Some(c) then 2
            else if ' ' <= c <= '~' then 1
            else if c as int < 0x10000 then 6
            else 12
  {
    if |Escape(c)| == 2 {
      assert Escape(c)[1] != '/' && Unescaped(Escape(c)[1]) == Some(c);
    }
  }

  lemma EscapedSplit(a: string, r: string)
    requires a != ""
    ensures Escaped(a) + r == Escape(a[0]) + (Escaped(a[1..]) + r)
  {
  }

  lemma EscapeStarts(c: char)
    ensures Escape(c) != "" && Escape(c)[0] != '\"'
  {
  }

  lemma TextReadsOn(s: string, c: char, rest: string, text: string, end: string)
    requires s != "" && s[0] != '\"'
    requires ReadChar(s) == Some((c, rest)) && ReadText(rest) == Some((text, end))
    ensures ReadText(s) == Some(([c] + text, end))
  {
  }

  lemma {:induction false} TextIsRead(text: string, r: string)
    ensures ReadText(Escaped(text) + r) == Some((text, r))
  {
    if text == "" {
      assert ("\"" + r)[1..] == r;
    } else {
      EscapedSplit(text, r);
      CharIsRead(text[0], Escaped(text[1..]) + r);
      EscapeStarts(text[0]);
      TextIsRead(text[1..], r);
      TextReadsOn(Escaped(text) + r, text[0], Escaped(text[1..]) + r, text[1..], r);
      assert text == [text[0]] + text[1..];
    }
  }

  /** What may follow a printed value: the end, or something no number can continue with. */
  predicate Delimited(rest: string) {
    rest == "" || !IsNumberChar(rest[0])
  }

  lemma {:induction false} NumberEnds(a: string, r: string)
    requires Delimited(r) && forall i :: 0 <= i < |a| ==> IsNumberChar(a[i])
    ensures NumberLength(a + r) == |a|
  {
    if a == "" {
      assert a + r == r;
    } else {
      assert (a + r)[1..] == a[1..] + r;
      NumberEnds(a[1..], r);
    }
  }

  lemma NatIsRead(n: nat)
    ensures ReadNat(Decimal(n)) == Some(n)
  {
    ReadDecimal(n, ":");
  }

  lemma IntIsRead(n: int)
    ensures ReadInt(IntText(n)) == Some(n)
  {
    NatIsRead(if n < 0 then -n else n);
    if n < 0 {
      assert IntText(n)[1..] == Decimal(-n);
    } else {
      assert IsDigit(Decimal(n)[0]);
    }
  }

  lemma NumberIsRead(t: Tree, r: string)
    requires Printable(t) && (t.Int? || t.Float?) && Delimited(r)
    ensures ReadValue(Print(t) + r) == Some((t, r))
  {
    var s := Print(t) + r;
    NumberText(t);
    NumberEnds(Print(t), r);
    assert s[..|Print(t)|] == Print(t) && s[|Print(t)|..] == r;
    if t.Int? {
      IntIsRead(t.n);
    }
    assert s[0] == Print(t)[0];
    assert ReadValue(s) == ReadNumber(s);
  }

  lemma ConstantIsRead(t: Tree, r: string)
    requires t.Null? || t.Bool?
    ensures ReadValue(Print(t) + r) == Some((t, r))
  {
    var s := Print(t) + r;
    assert s[..|Print(t)|] == Print(t) && s[|Print(t)|..] == r && s[0] == Print(t)[0];
  }

  // How each printed form starts, with whatever follows it.

  lemma ArraySplit(t: Tree, r: string)
    requires t.Arr?
    ensures t.items == [] ==> (Print(t) + r)[1..] == "]" + r
    ensures t.items != [] ==> (Print(t) + r)[1..] == Print(t.items[0]) + (PrintItems(t.items[1..]) + r)
  {
  }

  lemma ObjectSplit(t: Tree, r: string)
    requires t.Obj?
    ensures t.fields == [] ==> (Print(t) + r)[1..] == "}" + r
    ensures t.fields != [] ==> (Print(t) + r)[1..] == PrintMember(t.fields[0]) + (PrintMembers(t.fields[1..]) + r)
  {
  }

  lemma ItemsSplit(xs: seq<Tree>, r: string)
    ensures xs == [] ==> PrintItems(xs) + r == "]" + r
    ensures xs != [] ==> PrintItems(xs) + r == "," + (Print(xs[0]) + (PrintItems(xs[1..]) + r))
  {
  }

  lemma MembersSplit(xs: seq<Member>, r: string)
    ensures xs == [] ==> PrintMembers(xs) + r == "}" + r
    ensures xs != [] ==> PrintMembers(xs) + r == "," + (PrintMember(xs[0]) + (PrintMembers(xs[1..]) + r))
  {
  }

  lemma MemberSplit(m: Member, r: string)
    ensures PrintMember(m) + r == "\"" + (Escaped(m.key) + (":" + (Print(m.value) + r)))
  {
  }

  lemma StringSplit(t: Tree, r: string)
    requires t.Str?
    ensures Print(t) + r == "\"" + (Escaped(t.s) + r)
  {
  }

  /** A JSON reader reads what is printed back as the value, and stops where the print ends. */
  lemma {:induction false} PrintIsRead(t: Tree, r: string)
    requires Printable(t) && Delimited(r)
    ensures ReadValue(Print(t) + r) == Some((t, r))
    decreases t, 0
  {
    match t
    case Null => ConstantIsRead(t, r);
    case Bool(_) => ConstantIsRead(t, r);
    case Int(_) => NumberIsRead(t, r);
    case Float(_) => NumberIsRead(t, r);
    case Str(text) =>
      StringSplit(t, r);
      TextIsRead(text, r);
      assert (Print(t) + r)[1..] == Escaped(text) + r;
    case Arr(_) => ArrayIsRead(t, r);
    case Obj(_) => ObjectIsRead(t, r);
  }

  lemma ValueStarts(t: Tree)
    requires Printable(t)
    ensures Print(t) != "" && Print(t)[0] != ']'
  {
    if t.Int? || t.Float? {
      NumberText(t);
    }
  }

  lemma {:induction false} ArrayIsRead(t: Tree, r: string)
    requires Printable(t) && t.Arr?
    ensures ReadValue(Print(t) + r) == Some((t, r))
    decreases t, -1
  {
    var s := Print(t) + r;
    ArraySplit(t, r);
    assert s[0] == '[';
    if t.items == [] {
      assert s[1] == ']' && s[2..] == r;
    } else {
      ValueStarts(t.items[0]);
      assert s[1] == Print(t.items[0])[0];
      ItemsAreRead(t.items, r);
    }
  }

  lemma ItemsReadOn(s: string, first: Tree, rest: string, others: seq<Tree>, end: string)
    requires ReadValue(s) == Some((first, rest)) && rest != ""
    requires if others == [] then rest == "]" + end else rest[0] == ',' && ReadItems(rest[1..]) == Some((others, end))
    ensures ReadItems(s) == Some(([first] + others, end))
  {
    assert ("]" + end)[1..] == end && [first] + [] == [first];
  }

  lemma {:induction false} ItemsAreRead(items: seq<Tree>, r: string)
    requires items != [] && forall i :: 0 <= i < |items| ==> Printable(items[i])
    ensures ReadItems(Print(items[0]) + (PrintItems(items[1..]) + r)) == Some((items, r))
    decreases items, 1
  {
    var rest := PrintItems(items[1..]) + r;
    ItemsSplit(items[1..], r);
    PrintIsRead(items[0], rest);
    if |items| > 1 {
      ItemsAreRead(items[1..], r);
      assert rest[1..] == Print(items[1..][0]) + (PrintItems(items[1..][1..]) + r);
    }
    ItemsReadOn(Print(items[0]) + rest, items[0], rest, items[1..], r);
    assert items == [items[0]] + items[1..];
  }

  lemma {:induction false} ObjectIsRead(t: Tree, r: string)
    requires Printable(t) && t.Obj?
    ensures ReadValue(Print(t) + r) == Some((t, r))
    decreases t, -1
  {
    var s := Print(t) + r;
    ObjectSplit(t, r);
    assert s[0] == '{';
    if t.fields == [] {
      assert s[1] == '}' && s[2..] == r;
    } else {
      assert s[1] == PrintMember(t.fields[0])[0] == '\"';
      MembersAreRead(t.fields, r);
    }
  }

  lemma {:induction false} MemberIsRead(m: Member, r: string)
    requires Printable(m.value) && Delimited(r)
    ensures ReadMember(PrintMember(m) + r) == Some((m, r))
    decreases m, 1
  {
    var text := ":" + (Print(m.value) + r);
    MemberSplit(m, r);
    assert (PrintMember(m) + r)[1..] == Escaped(m.key) + text;
    TextIsRead(m.key, text);
    assert text[1..] == Print(m.value) + r;
    PrintIsRead(m.value, r);
  }

  lemma MembersReadOn(s: string, first: Member, rest: string, others: seq<Member>, end: string)
    requires ReadMember(s) == Some((first, rest)) && rest != ""
    requires if others == [] then rest == "}" + end else rest[0] == ',' && ReadMembers(rest[1..]) == Some((others, end))
    ensures ReadMembers(s) == Some(([first] + others, end))
  {
    assert ("}" + end)[1..] == end && [first] + [] == [first];
  }

  lemma {:induction false} MembersAreRead(fields: seq<Member>, r: string)
    requires fields != [] && forall i :: 0 <= i < |fields| ==> Printable(fields[i].value)
    ensures ReadMembers(PrintMember(fields[0]) + (PrintMembers(fields[1..]) + r)) == Some((fields, r))
    decreases fields, 2
  {
    var rest := PrintMembers(fields[1..]) + r;
    MembersSplit(fields[1..], r);
    MemberIsRead(fields[0], rest);
    if |fields| > 1 {
      MembersAreRead(fields[1..], r);
      assert rest[1..] == PrintMember(fields[1..][0]) + (PrintMembers(fields[1..][1..]) + r);
    }
    MembersReadOn(PrintMember(fields[0]) + rest, fields[0], rest, fields[1..], r);
    assert fields == [fields[0]] + fields[1..];
  }

  /** Two printed values that start one text are one value: the printer is a prefix code. */
  lemma PrintIsUnique(a: Tree, b: Tree, r: string, s: string)
    requires Printable(a) && Printable(b) && Delimited(r) && Delimited(s)
    requires Print(a) + r == Print(b) + s
    ensures a == b && r == s
  {
    PrintIsRead(a, r);
    PrintIsRead(b, s);
  }

  lemma PrintIsInjective(a: Tree, b: Tree)
    requires Printable(a) && Printable(b) && Print(a) == Print(b)
    ensures a == b
  {
    assert Print(a) + "" == Print(b) + "";
    PrintIsUnique(a, b, "", "");
  }
}
