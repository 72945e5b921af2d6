/** How a model argument is classified: by its name, whatever its spelling. */
module ModelArgKinds {
  import opened Characters
  import opened ModelArgTables

  datatype Kind = Generation | Nested | Excluded | SecretShaped

  // ---------------------------------------------------------------------
  // The normal form of a name
  // ---------------------------------------------------------------------

  /** An underscore between a lower-case letter or digit and the capital after it. */
  function BreakBeforeCapitals(s: string): string {
    if |s| <= 1 then s
    else [s[0]] + (if IsLowerOrDigit(s[0]) && IsUpper(s[1]) then "_" else "") + BreakBeforeCapitals(s[1..])
  }

  /** An underscore before the last capital of a run that a lower-case letter follows. */
  function BreakAcronyms(s: string): string {
    if |s| <= 2 then s
    else [s[0]] + (if IsUpper(s[0]) && IsUpper(s[1]) && IsLower(s[2]) then "_" else "") + BreakAcronyms(s[1..])
  }

  /** Lower case, as far as ASCII can see it: two characters outside ASCII have an ASCII lower case. */
  function Lowered(c: char): string {
    if IsUpper(c) then [c + 32 as char]
    else if c == 0x212a as char then "k"
    else if c == 0x130 as char then ['i', 0x307 as char]
    else [c]
  }

  function LoweredAll(s: string): string {
    if s == "" then "" else Lowered(s[0]) + LoweredAll(s[1..])
  }

  /** The maximal runs of lower-case letters and digits, `run` being the one under way. */
  function Tokens(s: string, run: string): seq<string> {
    if s == "" then (if run == "" then [] else [run])
    else if IsLowerOrDigit(s[0]) then Tokens(s[1..], run + [s[0]])
    else (if run == "" then [] else [run]) + Tokens(s[1..], "")
  }

  function TokensOf(name: string): seq<string> {
    Tokens(LoweredAll(BreakAcronyms(BreakBeforeCapitals(name))), "")
  }

  /** Tokens joined by underscores. */
  function Snake(tokens: seq<string>): string {
    if tokens == [] then "" else tokens[0] + SnakeTail(tokens[1..])
  }

  function SnakeTail(tokens: seq<string>): string {
    if tokens == [] then "" else "_" + tokens[0] + SnakeTail(tokens[1..])
  }

  function Capitalized(token: string): string {
    if token != "" && IsLower(token[0]) then [token[0] - 32 as char] + token[1..] else token
  }

  /** Tokens run together, each but the first with a capital. */
  function Camel(tokens: seq<string>): string {
    if tokens == [] then "" else tokens[0] + CamelTail(tokens[1..])
  }

  function CamelTail(tokens: seq<string>): string {
    if tokens == [] then "" else Capitalized(tokens[0]) + CamelTail(tokens[1..])
  }

  predicate SequenceAt(tokens: seq<string>, i: nat, sequence: seq<string>) {
    i + |sequence| <= |tokens| && tokens[i..i + |sequence|] == sequence
  }

  predicate ContainsSequence(tokens: seq<string>, sequence: seq<string>) {
    exists i :: 0 <= i < |tokens| && SequenceAt(tokens, i, sequence)
  }

  predicate ExcludedBy(tokens: seq<string>, single: set<string>, sequences: seq<seq<string>>) {
    || (exists i :: 0 <= i < |tokens| && tokens[i] in single)
    || (exists k :: 0 <= k < |sequences| && ContainsSequence(tokens, sequences[k]))
  }

  predicate ExcludedByTokens(tokens: seq<string>) {
    ExcludedBy(tokens, EXCLUDED_TOKENS, EXCLUDED_SEQUENCES)
  }

  function KindOf(name: string): Kind {
    var tokens := TokensOf(name);
    var normal := Snake(tokens);
    if normal in GENERATION_FIELDS then Generation
    else if normal in NESTED_FIELDS then Nested
    else if normal in EXCLUDED_FIELDS then Excluded
    else if ExcludedByTokens(tokens) then Excluded
    else if tokens != [] && tokens[|tokens| - 1] in SECRET_SUFFIXES then SecretShaped
    else Nested
  }

  // ---------------------------------------------------------------------
  // Spellings
  // ---------------------------------------------------------------------

  predicate Word(token: string) {
    token != "" && forall i :: 0 <= i < |token| ==> IsLowerOrDigit(token[i])
  }

  predicate NoCapitals(s: string) {
    forall i :: 0 <= i < |s| ==> s[i] == '_' || IsLowerOrDigit(s[i])
  }

  lemma {:induction false} NothingToBreak(s: string)
    requires NoCapitals(s)
    ensures BreakBeforeCapitals(s) == s && BreakAcronyms(s) == s && LoweredAll(s) == s
  {
    if s != "" {
      NothingToBreak(s[1..]);
      assert s == [s[0]] + s[1..];
      assert [s[0]] + "" == [s[0]];
    }
  }

  lemma {:induction false} SnakeHasNoCapitals(tokens: seq<string>)
    requires forall i :: 0 <= i < |tokens| ==> Word(tokens[i])
    ensures NoCapitals(SnakeTail(tokens)) && NoCapitals(Snake(tokens))
  {
    if tokens != [] {
      SnakeHasNoCapitals(tokens[1..]);
    }
  }

  lemma {:induction false} RunIsRead(token: string, rest: string, run: string)
    requires forall i :: 0 <= i < |token| ==> IsLowerOrDigit(token[i])
    ensures Tokens(token + rest, run) == Tokens(rest, run + token)
    decreases token
  {
    if token == "" {
      assert token + rest == rest && run + token == run;
    } else {
      assert (token + rest)[1..] == token[1..] + rest && (token + rest)[0] == token[0];
      RunIsRead(token[1..], rest, run + [token[0]]);
      assert run + [token[0]] + token[1..] == run + token;
    }
  }

  lemma {:induction false} SnakeTailIsRead(tokens: seq<string>, run: string)
    requires run != "" && forall i :: 0 <= i < |tokens| ==> Word(tokens[i])
    ensures Tokens(SnakeTail(tokens), run) == [run] + tokens
    decreases tokens
  {
    if tokens != [] {
      var rest := tokens[0] + SnakeTail(tokens[1..]);
      assert SnakeTail(tokens) == "_" + rest && ("_" + rest)[1..] == rest;
      RunIsRead(tokens[0], SnakeTail(tokens[1..]), "");
      assert "" + tokens[0] == tokens[0];
      SnakeTailIsRead(tokens[1..], tokens[0]);
    }
  }

  /** Snake case is the normal form: reading it gives the tokens back. */
  lemma SnakeIsRead(tokens: seq<string>)
    requires forall i :: 0 <= i < |tokens| ==> Word(tokens[i])
    ensures TokensOf(Snake(tokens)) == tokens
  {
    SnakeHasNoCapitals(tokens);
    NothingToBreak(Snake(tokens));
    TokensOfSnake(tokens);
  }

  lemma TokensOfSnake(tokens: seq<string>)
    requires forall i :: 0 <= i < |tokens| ==> Word(tokens[i])
    ensures Tokens(Snake(tokens), "") == tokens
  {
    if tokens != [] {
      RunIsRead(tokens[0], SnakeTail(tokens[1..]), "");
      assert "" + tokens[0] == tokens[0];
      SnakeTailIsRead(tokens[1..], tokens[0]);
    }
  }

  // ---------------------------------------------------------------------
  // Camel case
  // ---------------------------------------------------------------------

  /** A single letter behind the first token: in camel case it is a capital with no letter behind it. */
  predicate Lone(token: string) {
    |token| == 1 && IsLower(token[0])
  }

  /** In camel case the second token starts visibly behind the first. */
  predicate Parted(lone: bool, next: string) {
    next != "" && IsLower(next[0]) && (lone ==> |next| >= 2 && IsLower(next[1]))
  }

  /**
   Every token but the first starts with a letter, and behind a single letter, first token aside, it
   goes on with a letter.
   */
  predicate PartedThroughout(tokens: seq<string>) {
    forall i :: 0 < i < |tokens| ==> PartedBefore(tokens, i)
  }

  predicate PartedBefore(tokens: seq<string>, i: nat)
    requires 0 < i < |tokens|
  {
    Parted(i > 1 && Lone(tokens[i - 1]), tokens[i])
  }

  // The texts on the way from camel case to tokens. `lone` says that a lone capital stands before.

  /** After the first breaks: none behind a lone capital. */
  function Spaced(lone: bool, tokens: seq<string>): string
    decreases tokens
  {
    if tokens == [] then ""
    else
      (if !lone && Parted(lone, tokens[0]) then "_" else "") +
      (Capitalized(tokens[0]) + Spaced(Lone(tokens[0]), tokens[1..]))
  }

  /** After the second breaks. */
  function Separated(lone: bool, tokens: seq<string>): string
    decreases tokens
  {
    if tokens == [] then ""
    else
      (if Parted(lone, tokens[0]) then "_" else "") +
      (Capitalized(tokens[0]) + Separated(Lone(tokens[0]), tokens[1..]))
  }

  function Joined(lone: bool, tokens: seq<string>): string
    decreases tokens
  {
    if tokens == [] then ""
    else (if Parted(lone, tokens[0]) then "_" else "") + (tokens[0] + Joined(Lone(tokens[0]), tokens[1..]))
  }

  /** The tokens that are read, where unparted ones have grown together; `run` is the one under way. */
  function Merged(run: string, lone: bool, tokens: seq<string>): seq<string>
    decreases tokens
  {
    if tokens == [] then [run]
    else if Parted(lone, tokens[0]) then [run] + Merged(tokens[0], Lone(tokens[0]), tokens[1..])
    else Merged(run + tokens[0], Lone(tokens[0]), tokens[1..])
  }

  /** What the first breaks make of the text behind a word. */
  function Broken(behindCapital: bool, rest: string): string {
    (if !behindCapital && rest != "" && IsUpper(rest[0]) then "_" else "") + BreakBeforeCapitals(rest)
  }

  lemma {:induction false} WordIsKept(word: string, rest: string)
    requires word != "" && forall i :: 0 < i < |word| ==> IsLowerOrDigit(word[i])
    requires IsUpper(word[0]) || IsLowerOrDigit(word[0])
    ensures BreakBeforeCapitals(word + rest) == word + Broken(|word| == 1 && IsUpper(word[0]), rest)
    decreases word
  {
    var s := word + rest;
    assert s[0] == word[0];
    if |word| == 1 {
      assert s[1..] == rest;
      assert rest == "" ==> s == word;
    } else {
      assert s[1] == word[1] && s[1..] == word[1..] + rest;
      WordIsKept(word[1..], rest);
      assert word == [word[0]] + "" + word[1..];
    }
  }

  /** What the second breaks make of the text behind a word. */
  function BrokenAgain(behindCapital: bool, rest: string): string {
    (if behindCapital && |rest| >= 2 && IsUpper(rest[0]) && IsLower(rest[1]) then "_" else "") + BreakAcronyms(rest)
  }

  lemma {:induction false} WordIsKeptAgain(word: string, rest: string)
    requires word != "" && forall i :: 0 < i < |word| ==> IsLowerOrDigit(word[i])
    ensures BreakAcronyms(word + rest) == word + BrokenAgain(|word| == 1 && IsUpper(word[0]), rest)
    decreases word
  {
    var s := word + rest;
    assert s[0] == word[0];
    if |word| == 1 {
      assert s[1..] == rest;
      assert |rest| <= 1 ==> s == word + rest;
    } else {
      assert s[1] == word[1] && s[1..] == word[1..] + rest;
      WordIsKeptAgain(word[1..], rest);
      assert word == [word[0]] + "" + word[1..];
    }
  }

  lemma CapitalizedShape(token: string)
    requires Word(token)
    ensures var c := Capitalized(token);
            && |c| == |token| && (forall i :: 0 < i < |c| ==> c[i] == token[i] && IsLowerOrDigit(c[i]))
            && (IsUpper(c[0]) <==> IsLower(token[0])) && (IsUpper(c[0]) || IsLowerOrDigit(c[0]))
  {
  }

  lemma {:induction false} FirstBreaks(lone: bool, tokens: seq<string>)
    requires forall i :: 0 <= i < |tokens| ==> Word(tokens[i])
    ensures Broken(lone, CamelTail(tokens)) == Spaced(lone, tokens)
    decreases tokens
  {
    if tokens != [] {
      var word, rest := Capitalized(tokens[0]), CamelTail(tokens[1..]);
      CapitalizedShape(tokens[0]);
      assert (word + rest)[0] == word[0];
      WordIsKept(word, rest);
      FirstBreaks(Lone(tokens[0]), tokens[1..]);
    }
  }

  /** How the text behind a lone capital starts. */
  lemma SpacedStart(lone: bool, tokens: seq<string>)
    requires forall i :: 0 <= i < |tokens| ==> Word(tokens[i])
    ensures var s := Spaced(lone, tokens);
            && (lone ==> (|s| >= 2 && IsUpper(s[0]) && IsLower(s[1]) <==> tokens != [] && Parted(true, tokens[0])))
            && (lone && s != "" ==> !IsLower(s[0]))
  {
    if lone && tokens != [] {
      var word := Capitalized(tokens[0]);
      CapitalizedShape(tokens[0]);
    }
  }

  lemma {:induction false} LoweredIsPiecewise(a: string, b: string)
    ensures LoweredAll(a + b) == LoweredAll(a) + LoweredAll(b)
  {
    if a == "" {
      assert a + b == b;
    } else {
      assert (a + b)[0] == a[0] && (a + b)[1..] == a[1..] + b;
      LoweredIsPiecewise(a[1..], b);
    }
  }

  lemma CapitalIsLowered(word: string)
    requires Word(word)
    ensures LoweredAll(Capitalized(word)) == word && LoweredAll(word) == word
  {
    NothingToBreak(word);
    NothingToBreak(word[1..]);
    LoweredIsPiecewise(Capitalized(word)[..1], word[1..]);
    assert Capitalized(word) == Capitalized(word)[..1] + word[1..];
    assert LoweredAll(Capitalized(word)[..1]) == [word[0]];
  }

  lemma {:induction false} SecondBreaks(lone: bool, tokens: seq<string>)
    requires forall i :: 0 <= i < |tokens| ==> Word(tokens[i])
    ensures BrokenAgain(lone, Spaced(lone, tokens)) == Separated(lone, tokens)
    decreases tokens
  {
    if tokens != [] {
      var word, rest := Capitalized(tokens[0]), Spaced(Lone(tokens[0]), tokens[1..]);
      SpacedStart(lone, tokens);
      CapitalizedShape(tokens[0]);
      WordIsKeptAgain(word, rest);
      SecondBreaks(Lone(tokens[0]), tokens[1..]);
      assert BreakAcronyms(word + rest) == word + Separated(Lone(tokens[0]), tokens[1..]);
      if !lone && Parted(lone, tokens[0]) {
        WordIsKeptAgain("_", word + rest);
        assert Spaced(lone, tokens) == "_" + (word + rest);
        assert BrokenAgain(false, word + rest) == BreakAcronyms(word + rest);
      } else {
        assert Spaced(lone, tokens) == word + rest;
      }
    }
  }

  lemma {:induction false} TailIsLowered(lone: bool, tokens: seq<string>)
    requires forall i :: 0 <= i < |tokens| ==> Word(tokens[i])
    ensures LoweredAll(Separated(lone, tokens)) == Joined(lone, tokens)
    decreases tokens
  {
    if tokens != [] {
      var rest := Separated(Lone(tokens[0]), tokens[1..]);
      CapitalIsLowered(tokens[0]);
      TailIsLowered(Lone(tokens[0]), tokens[1..]);
      LoweredIsPiecewise(Capitalized(tokens[0]), rest);
      LoweredIsPiecewise(if Parted(lone, tokens[0]) then "_" else "", Capitalized(tokens[0]) + rest);
      assert LoweredAll("_") == "_" && LoweredAll("") == "";
    }
  }

  lemma {:induction false} JoinedIsRead(run: string, lone: bool, tokens: seq<string>)
    requires run != "" && forall i :: 0 <= i < |tokens| ==> Word(tokens[i])
    ensures Tokens(Joined(lone, tokens), run) == Merged(run, lone, tokens)
    decreases tokens
  {
    if tokens != [] {
      var rest := Joined(Lone(tokens[0]), tokens[1..]);
      if Parted(lone, tokens[0]) {
        assert ("_" + (tokens[0] + rest))[1..] == tokens[0] + rest;
        RunIsRead(tokens[0], rest, "");
        assert "" + tokens[0] == tokens[0];
        JoinedIsRead(tokens[0], Lone(tokens[0]), tokens[1..]);
      } else {
        assert "" + (tokens[0] + rest) == tokens[0] + rest;
        RunIsRead(tokens[0], rest, run);
        JoinedIsRead(run + tokens[0], Lone(tokens[0]), tokens[1..]);
      }
    }
  }

  predicate PartedAt(lone: bool, tokens: seq<string>, i: nat)
    requires i < |tokens|
  {
    Parted(if i == 0 then lone else Lone(tokens[i - 1]), tokens[i])
  }

  predicate AllParted(lone: bool, tokens: seq<string>) {
    forall i :: 0 <= i < |tokens| ==> PartedAt(lone, tokens, i)
  }

  lemma AllPartedOneMore(lone: bool, tokens: seq<string>)
    requires tokens != []
    ensures AllParted(lone, tokens) <==> Parted(lone, tokens[0]) && AllParted(Lone(tokens[0]), tokens[1..])
  {
    var rest := tokens[1..];
    assert PartedAt(lone, tokens, 0) == Parted(lone, tokens[0]);
    forall i | 0 <= i < |rest| ensures PartedAt(Lone(tokens[0]), rest, i) == PartedAt(lone, tokens, i + 1) {
    }
    forall i | 0 < i < |tokens| ensures PartedAt(lone, tokens, i) == PartedAt(Lone(tokens[0]), rest, i - 1) {
    }
  }

  lemma {:induction false} NothingMerges(run: string, lone: bool, tokens: seq<string>)
    ensures |Merged(run, lone, tokens)| <= 1 + |tokens|
    ensures Merged(run, lone, tokens) == [run] + tokens <==> AllParted(lone, tokens)
    decreases tokens
  {
    if tokens != [] {
      var rest := tokens[1..];
      AllPartedOneMore(lone, tokens);
      if Parted(lone, tokens[0]) {
        NothingMerges(tokens[0], Lone(tokens[0]), rest);
        assert [run] + tokens == [run] + ([tokens[0]] + rest);
        assert Merged(run, lone, tokens)[1..] == Merged(tokens[0], Lone(tokens[0]), rest);
        assert ([run] + ([tokens[0]] + rest))[1..] == [tokens[0]] + rest;
      } else {
        NothingMerges(run + tokens[0], Lone(tokens[0]), rest);
      }
    }
  }

  lemma PartedFromTheSecond(tokens: seq<string>)
    requires tokens != []
    ensures PartedThroughout(tokens) <==> AllParted(false, tokens[1..])
  {
    var rest := tokens[1..];
    forall i | 0 < i < |tokens| ensures PartedBefore(tokens, i) == PartedAt(false, rest, i - 1) {
    }
    forall i | 0 <= i < |rest| ensures PartedBefore(tokens, i + 1) == PartedAt(false, rest, i) {
    }
  }

  /** What any camel-case name is read as. */
  lemma CamelIsRead(tokens: seq<string>)
    requires tokens != [] && forall i :: 0 <= i < |tokens| ==> Word(tokens[i])
    ensures TokensOf(Camel(tokens)) == Merged(tokens[0], false, tokens[1..])
  {
    var word, rest := tokens[0], tokens[1..];
    WordIsKept(word, CamelTail(rest));
    FirstBreaks(false, rest);
    WordIsKeptAgain(word, Spaced(false, rest));
    SecondBreaks(false, rest);
    LoweredIsPiecewise(word, Separated(false, rest));
    CapitalIsLowered(word);
    TailIsLowered(false, rest);
    RunIsRead(word, Joined(false, rest), "");
    assert "" + word == word;
    JoinedIsRead(word, false, rest);
  }

  /**
   Camel case and snake case are read alike exactly when every token but the first starts with a
   letter and, behind a single letter that is not the first token, goes on with a letter. Then they
   are classified alike.
   */
  lemma SpellingsAgree(tokens: seq<string>)
    requires forall i :: 0 <= i < |tokens| ==> Word(tokens[i])
    ensures TokensOf(Camel(tokens)) == TokensOf(Snake(tokens)) <==> PartedThroughout(tokens)
    ensures PartedThroughout(tokens) ==> KindOf(Camel(tokens)) == KindOf(Snake(tokens))
  {
    CamelIsReadExactly(tokens);
    SnakeIsRead(tokens);
    if PartedThroughout(tokens) {
      SameTokensSameKind(Camel(tokens), Snake(tokens));
    }
  }

  lemma SameTokensSameKind(a: string, b: string)
    requires TokensOf(a) == TokensOf(b)
    ensures KindOf(a) == KindOf(b)
  {
  }

  lemma CamelIsReadExactly(tokens: seq<string>)
    requires forall i :: 0 <= i < |tokens| ==> Word(tokens[i])
    ensures TokensOf(Camel(tokens)) == tokens <==> PartedThroughout(tokens)
  {
    if tokens != [] {
      CamelIsRead(tokens);
      NothingMerges(tokens[0], false, tokens[1..]);
      PartedFromTheSecond(tokens);
      assert tokens == [tokens[0]] + tokens[1..];
    }
  }

  predicate ExcludedPart(part: seq<string>, single: set<string>, sequences: seq<seq<string>>) {
    part != [] && ((|part| == 1 && part[0] in single) || part in sequences)
  }

  ghost predicate HasExcludedPart(tokens: seq<string>, single: set<string>, sequences: seq<seq<string>>) {
    exists before, part, after :: ExcludedPart(part, single, sequences) && tokens == before + part + after
  }

  /** An excluded token or sequence stands somewhere in them. */
  ghost predicate Tainted(tokens: seq<string>) {
    HasExcludedPart(tokens, EXCLUDED_TOKENS, EXCLUDED_SEQUENCES)
  }

  lemma PartExcludes(before: seq<string>, part: seq<string>, after: seq<string>, single: set<string>,
                     sequences: seq<seq<string>>)
    requires ExcludedPart(part, single, sequences)
    ensures ExcludedBy(before + part + after, single, sequences)
  {
    var tokens := before + part + after;
    assert tokens[|before|] == part[0];
    assert SequenceAt(tokens, |before|, part);
  }

  lemma ExcludedHasAPart(tokens: seq<string>, single: set<string>, sequences: seq<seq<string>>)
    requires [] !in sequences && ExcludedBy(tokens, single, sequences)
    ensures HasExcludedPart(tokens, single, sequences)
  {
    if i :| 0 <= i < |tokens| && tokens[i] in single {
      assert tokens == tokens[..i] + [tokens[i]] + tokens[i + 1..];
      assert ExcludedPart([tokens[i]], single, sequences);
    } else {
      var k :| 0 <= k < |sequences| && ContainsSequence(tokens, sequences[k]);
      var i :| 0 <= i < |tokens| && SequenceAt(tokens, i, sequences[k]);
      assert tokens == tokens[..i] + sequences[k] + tokens[i + |sequences[k]|..];
      assert ExcludedPart(sequences[k], single, sequences);
    }
  }

  /** Tokens exclude a name exactly when a listed token or sequence stands in them, whatever surrounds it. */
  lemma ExcludedInAnyContext(tokens: seq<string>)
    ensures ExcludedByTokens(tokens) <==> Tainted(tokens)
  {
    SequencesAreNotEmpty();
    if Tainted(tokens) {
      var before, part, after :|
        ExcludedPart(part, EXCLUDED_TOKENS, EXCLUDED_SEQUENCES) && tokens == before + part + after;
      PartExcludes(before, part, after, EXCLUDED_TOKENS, EXCLUDED_SEQUENCES);
    }
    if ExcludedByTokens(tokens) {
      ExcludedHasAPart(tokens, EXCLUDED_TOKENS, EXCLUDED_SEQUENCES);
    }
  }

  lemma SequencesAreNotEmpty()
    ensures [] !in EXCLUDED_SEQUENCES
  {
  }

  /** Doubtful: nothing is known of the name, and its last token is one that names of secrets end in. */
  predicate EndsLikeASecret(tokens: seq<string>) {
    tokens != [] && (tokens[|tokens| - 1] == "key" || tokens[|tokens| - 1] == "token")
  }

  predicate Listed(tokens: seq<string>) {
    Snake(tokens) in GENERATION_FIELDS || Snake(tokens) in NESTED_FIELDS || Snake(tokens) in EXCLUDED_FIELDS
  }

  /**
   In either spelling a known field is classified by its table, any other name that has an excluded token or
   sequence of tokens in it is excluded, and what is left is doubtful exactly when it ends like a secret.
   */
  lemma TokensDecide(tokens: seq<string>, name: string)
    requires forall i :: 0 <= i < |tokens| ==> Word(tokens[i])
    requires name == Snake(tokens) || (name == Camel(tokens) && PartedThroughout(tokens))
    ensures Snake(tokens) in GENERATION_FIELDS <==> KindOf(name) == Generation
    ensures Snake(tokens) in NESTED_FIELDS - GENERATION_FIELDS ==> KindOf(name) == Nested
    ensures Snake(tokens) in EXCLUDED_FIELDS - GENERATION_FIELDS - NESTED_FIELDS ==> KindOf(name) == Excluded
    ensures Snake(tokens) !in GENERATION_FIELDS + NESTED_FIELDS && Tainted(tokens) ==> KindOf(name) == Excluded
    ensures !Listed(tokens) && !Tainted(tokens) ==>
              KindOf(name) == if EndsLikeASecret(tokens) then SecretShaped else Nested
  {
    ExcludedInAnyContext(tokens);
    CamelIsReadExactly(tokens);
    SnakeIsRead(tokens);
    TokensDecideKind(tokens, name);
  }

  lemma TokensDecideKind(tokens: seq<string>, name: string)
    requires TokensOf(name) == tokens
    ensures Snake(tokens) in GENERATION_FIELDS <==> KindOf(name) == Generation
    ensures Snake(tokens) in NESTED_FIELDS - GENERATION_FIELDS ==> KindOf(name) == Nested
    ensures Snake(tokens) in EXCLUDED_FIELDS - GENERATION_FIELDS - NESTED_FIELDS ==> KindOf(name) == Excluded
    ensures Snake(tokens) !in GENERATION_FIELDS + NESTED_FIELDS && ExcludedByTokens(tokens) ==> KindOf(name) == Excluded
    ensures !Listed(tokens) && !ExcludedByTokens(tokens) ==>
              KindOf(name) == if EndsLikeASecret(tokens) then SecretShaped else Nested
  {
    SecretSuffixes();
  }

  lemma SecretSuffixes()
    ensures forall t :: t in SECRET_SUFFIXES <==> t == "key" || t == "token"
  {
  }

  // ---------------------------------------------------------------------
  // Instances
  // ---------------------------------------------------------------------

  function SingleLetters(): seq<string> {
    ["x", "u", "r", "l"]
  }

  /** xURL is read as two tokens, x_u_r_l as four. */
  lemma SingleLettersAreSpelledApart()
    ensures !PartedThroughout(SingleLetters())
    ensures TokensOf(Camel(SingleLetters())) == ["x", "url"]
    ensures TokensOf(Snake(SingleLetters())) == SingleLetters()
  {
    SnakeIsRead(SingleLetters());
    CamelIsRead(SingleLetters());
    LettersMerge();
    assert !PartedBefore(SingleLetters(), 2);
  }

  lemma LettersMerge()
    ensures Merged("x", false, ["u", "r", "l"]) == ["x", "url"]
  {
    assert "u" + "r" == "ur" && "ur" + "l" == "url";
    assert Merged("url", true, []) == ["url"];
    assert Merged("ur", true, ["l"]) == ["url"];
    assert Merged("u", true, ["r", "l"]) == ["url"];
  }

  // Names told from those in a table by their length and first letter.

  predicate Aside(name: string) {
    |name| == 7 || |name| == 24 || (|name| == 10 && name[0] == 'v')
  }

  lemma GenerationFieldsAside(name: string)
    requires Aside(name)
    ensures name !in GENERATION_FIELDS
  {
    GenerationFieldsAtoG(name);
    GenerationFieldsItoP(name);
    GenerationFieldsRtoW(name);
  }

  lemma GenerationFieldsAtoG(name: string)
    requires Aside(name)
    ensures name !in GENERATION_FIELDS_A_TO_G
  {
  }

  lemma GenerationFieldsItoP(name: string)
    requires Aside(name)
    ensures name !in GENERATION_FIELDS_I_TO_P
  {
  }

  lemma GenerationFieldsRtoW(name: string)
    requires Aside(name)
    ensures name !in GENERATION_FIELDS_R_TO_W
  {
  }

  function ApiKey(): seq<string> {
    ["api", "key"]
  }

  function Fallbacks(): seq<string> {
    ["context", "window", "fallbacks"]
  }

  lemma ApiKeyInSnakeCase()
    ensures Snake(ApiKey()) == "api_key"
  {
    assert SnakeTail(["key"]) == "_key";
  }

  lemma FallbacksInSnakeCase()
    ensures Snake(Fallbacks()) == "context_window_fallbacks"
  {
    assert SnakeTail(["fallbacks"]) == "_fallbacks";
    assert SnakeTail(["window", "fallbacks"]) == "_window_fallbacks";
  }

  /** The name is in normal form already. */
  predicate IsNormal(name: string) {
    Snake(TokensOf(name)) == name
  }

  lemma TablesDecide(name: string)
    requires IsNormal(name) && name !in GENERATION_FIELDS
    ensures name in NESTED_FIELDS ==> KindOf(name) == Nested
    ensures name in EXCLUDED_FIELDS && name !in NESTED_FIELDS ==> KindOf(name) == Excluded
  {
  }

  lemma ApiKeyInTables(name: string)
    requires name == "api_key"
    ensures name !in GENERATION_FIELDS && name !in NESTED_FIELDS && name in EXCLUDED_FIELDS
  {
    GenerationFieldsAside(name);
    assert name in EXCLUDED_FIELDS_A_TO_AU;
  }

  lemma FallbacksInTables(name: string)
    requires name == "context_window_fallbacks"
    ensures name !in GENERATION_FIELDS && name in NESTED_FIELDS
  {
    GenerationFieldsAside(name);
  }

  lemma ApiKeyIsNormal(name: string)
    requires name == "api_key"
    ensures IsNormal(name)
  {
    ApiKeyInSnakeCase();
    SnakeIsRead(ApiKey());
  }

  lemma FallbacksAreNormal(name: string)
    requires name == "context_window_fallbacks"
    ensures IsNormal(name)
  {
    FallbacksInSnakeCase();
    SnakeIsRead(Fallbacks());
  }

  /** An excluded name that is in use. */
  lemma ApiKeyIsExcluded(name: string)
    requires name == "api_key"
    ensures KindOf(name) == Excluded
  {
    ApiKeyIsNormal(name);
    ApiKeyInTables(name);
    TablesDecide(name);
  }

  /** A nested name that is in use. */
  lemma FallbacksAreNested(name: string)
    requires name == "context_window_fallbacks"
    ensures KindOf(name) == Nested
  {
    FallbacksAreNormal(name);
    FallbacksInTables(name);
    TablesDecide(name);
  }

  // Two characters outside ASCII whose lower case has an ASCII letter in it.

  predicate Uncapitalized(s: string) {
    forall i :: 0 <= i < |s| ==> !IsUpper(s[i])
  }

  lemma {:induction false} NoBreaks(s: string)
    requires Uncapitalized(s)
    ensures BreakBeforeCapitals(s) == s && BreakAcronyms(s) == s
  {
    if s != "" {
      NoBreaks(s[1..]);
      assert s == [s[0]] + "" + s[1..];
    }
  }

  /** Any two characters that are neither lower-case letters nor digits separate alike. */
  lemma {:induction false} SeparatorsAreAlike(x: string, c: char, d: char, y: string, run: string)
    requires !IsLowerOrDigit(c) && !IsLowerOrDigit(d)
    ensures Tokens(x + [c] + y, run) == Tokens(x + [d] + y, run)
    decreases x
  {
    var s, t := x + [c] + y, x + [d] + y;
    if x == "" {
      assert s[0] == c && t[0] == d && s[1..] == y && t[1..] == y;
    } else {
      assert s[0] == x[0] == t[0] && s[1..] == x[1..] + [c] + y && t[1..] == x[1..] + [d] + y;
      SeparatorsAreAlike(x[1..], c, d, y, if IsLowerOrDigit(x[0]) then run + [x[0]] else "");
    }
  }

  lemma LoweredAround(a: string, c: char, b: string)
    ensures LoweredAll(a + [c] + b) == LoweredAll(a) + Lowered(c) + LoweredAll(b)
  {
    LoweredIsPiecewise(a + [c], b);
    LoweredIsPiecewise(a, [c]);
    assert LoweredAll([c]) == Lowered(c) + "" == Lowered(c);
  }

  /**
   Among letters that are not ASCII capitals, a Kelvin sign is read as a k and so disguises no name; a
   capital I with a dot is read as an i and a separator.
   */
  lemma OtherCapitalsAreRead(a: string, b: string)
    requires Uncapitalized(a) && Uncapitalized(b)
    ensures TokensOf(a + [0x212a as char] + b) == TokensOf(a + "k" + b)
    ensures TokensOf(a + [0x130 as char] + b) == TokensOf(a + "i_" + b)
    ensures KindOf(a + [0x212a as char] + b) == KindOf(a + "k" + b)
  {
    KelvinSignIsRead(a, b);
    SameTokensSameKind(a + [0x212a as char] + b, a + "k" + b);
    NoBreaks(a + [0x130 as char] + b);
    DottedCapitalIsRead(a, b);
  }

  lemma KelvinSignIsRead(a: string, b: string)
    requires Uncapitalized(a) && Uncapitalized(b)
    ensures TokensOf(a + [0x212a as char] + b) == TokensOf(a + "k" + b)
  {
    NoBreaks(a + [0x212a as char] + b);
    NoBreaks(a + "k" + b);
    LoweredAround(a, 0x212a as char, b);
    LoweredAround(a, 'k', b);
  }

  lemma DottedCapitalIsRead(a: string, b: string)
    requires Uncapitalized(a) && Uncapitalized(b)
    ensures Tokens(LoweredAll(a + [0x130 as char] + b), "") == TokensOf(a + "i_" + b)
  {
    NoBreaks(a + "i_" + b);
    LoweredAround(a, 0x130 as char, b);
    LoweredWithText(a, "i_", b);
    DottedIsSeparated(LoweredAll(a), LoweredAll(b));
  }

  lemma LoweredWithText(a: string, text: string, b: string)
    requires NoCapitals(text)
    ensures LoweredAll(a + text + b) == LoweredAll(a) + text + LoweredAll(b)
  {
    LoweredIsPiecewise(a + text, b);
    LoweredIsPiecewise(a, text);
    NothingToBreak(text);
  }

  lemma DottedIsSeparated(x: string, y: string)
    ensures Tokens(x + ['i', 0x307 as char] + y, "") == Tokens(x + "i_" + y, "")
  {
    SeparatorsAreAlike(x + "i", 0x307 as char, '_', y, "");
    assert x + "i" + [0x307 as char] == x + ['i', 0x307 as char];
    assert x + "i" + ['_'] == x + "i_";
  }
}
