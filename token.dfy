/** The lexer of the expression language: it turns a character string into
    numbers, identifiers, the operators `+ - * / ^`, parentheses and commas,
    skipping whitespace, and fails on any other character. */
module Lexing {
  import opened Outcome

  datatype Token =
    | Number(value: real)
    | Identifier(name: string)
    | Plus | Minus | Star | Slash | Caret
    | LParen | RParen | Comma
    | EOF

  /** The "illegal character" panic of next_token. */
  datatype LexError = IllegalCharacter(c: char)

  /** char::is_whitespace: the White_Space characters of Unicode. */
  predicate IsWhitespace(c: char) {
    ('\t' <= c <= '\r') || c == ' ' || c == '\U{0085}' || c == '\U{00A0}' || c == '\U{1680}' ||
    ('\U{2000}' <= c <= '\U{200A}') || c == '\U{2028}' || c == '\U{2029}' || c == '\U{202F}' ||
    c == '\U{205F}' || c == '\U{3000}'
  }

  /** char::is_digit(10). */
  predicate IsDigit(c: char) {
    '0' <= c <= '9'
  }

  /** The characters read_number collects. */
  predicate IsNumberChar(c: char) {
    IsDigit(c) || c == '.'
  }

  /** The characters that start an identifier. */
  predicate IsIdentStart(c: char) {
    ('a' <= c <= 'z') || ('A' <= c <= 'Z') || c == '_'
  }

  /** The characters read_identifier collects: char::is_alphanumeric
      (restricted to ASCII here) or '_'. */
  predicate IsIdentChar(c: char) {
    ('a' <= c <= 'z') || ('A' <= c <= 'Z') || IsDigit(c) || c == '_'
  }

  /** The three runs of characters the lexer reads. */
  datatype CharClass = Space | NumberChars | IdentChars

  predicate InClass(c: char, k: CharClass) {
    match k
    case Space => IsWhitespace(c)
    case NumberChars => IsNumberChar(c)
    case IdentChars => IsIdentChar(c)
  }

  /** The length of the longest prefix of s whose characters are all of
      class k. */
  function RunLength(s: seq<char>, k: CharClass): (n: nat)
    ensures n <= |s|
    ensures forall i :: 0 <= i < n ==> InClass(s[i], k)
    ensures n < |s| ==> !InClass(s[n], k)
  {
    if s == [] || !InClass(s[0], k) then 0
    else
      var n := 1 + RunLength(s[1..], k);
      assert forall i :: 1 <= i < n ==> s[i] == s[1..][i - 1];
      n
  }

  /** What is left after skip_whitespace. */
  function AfterWhitespace(s: seq<char>): (t: seq<char>)
    ensures |t| <= |s| && t == s[|s| - |t|..]
    ensures t == [] || !IsWhitespace(t[0])
    ensures forall i :: 0 <= i < |s| - |t| ==> IsWhitespace(s[i])
  {
    s[RunLength(s, Space)..]
  }

  function DigitValue(c: char): nat
    requires IsDigit(c)
  {
    c as int - '0' as int
  }

  predicate AllDigits(s: string) {
    forall i :: 0 <= i < |s| ==> IsDigit(s[i])
  }

  /** The natural number a string of decimal digits denotes. */
  function DigitsValue(s: string): nat
    requires AllDigits(s)
  {
    if s == [] then 0 else 10 * DigitsValue(s[..|s| - 1]) + DigitValue(s[|s| - 1])
  }

  function Pow10(n: nat): (r: nat)
    ensures r >= 1
  {
    if n == 0 then 1 else 10 * Pow10(n - 1)
  }

  /** The position of the first '.' in s. */
  function DotIndex(s: string): (d: nat)
    requires '.' in s
    ensures d < |s| && s[d] == '.' && '.' !in s[..d]
  {
    if s[0] == '.' then 0
    else
      assert '.' in s[1..] by {
        var k :| 0 <= k < |s| && s[k] == '.';
        assert s[1..][k - 1] == '.';
      }
      var d := 1 + DotIndex(s[1..]);
      assert s[..d] == [s[0]] + s[1..][..d - 1];
      d
  }

  /** The string has at most one '.' and at least one digit. */
  predicate Numeral(s: string) {
    (forall i, j :: 0 <= i < j < |s| && s[i] == '.' ==> s[j] != '.') &&
    exists i :: 0 <= i < |s| && IsDigit(s[i])
  }

  /** str::parse::<f64> of a run of digits and dots: a decimal numeral with
      an optional fraction ("12", "1.5", ".5", "5.") denotes its exact
      value; anything else ("", ".", "1.2.3") is a parse error. */
  function ParseNumber(s: string): (r: Option<real>)
    requires forall i :: 0 <= i < |s| ==> IsNumberChar(s[i])
    ensures r.Some? <==> Numeral(s)
  {
    if '.' !in s then
      if s == [] then None
      else
        assert AllDigits(s) by {
          forall i | 0 <= i < |s| ensures IsDigit(s[i]) {
            assert s[i] in s && IsNumberChar(s[i]);
          }
        }
        assert IsDigit(s[0]);
        Some(DigitsValue(s) as real)
    else
      var d := DotIndex(s);
      var whole, frac := s[..d], s[d + 1..];
      assert AllDigits(whole) by {
        forall i | 0 <= i < |whole| ensures IsDigit(whole[i]) {
          assert whole[i] == s[i] && IsNumberChar(s[i]) && whole[i] in s[..d];
        }
      }
      if '.' in frac then
        assert !Numeral(s) by {
          var k :| 0 <= k < |frac| && frac[k] == '.';
          assert s[d + 1 + k] == '.';
        }
        None
      else if whole == [] && frac == [] then
        assert |s| == 1;
        None
      else
        assert AllDigits(frac) by {
          forall i | 0 <= i < |frac| ensures IsDigit(frac[i]) {
            assert frac[i] == s[d + 1 + i] && IsNumberChar(s[d + 1 + i]) && frac[i] in frac;
          }
        }
        assert Numeral(s) by {
          forall i | 0 <= i < |s| && i != d ensures s[i] != '.' {
            if i < d {
              assert s[i] == whole[i] && whole[i] in whole;
            } else {
              assert s[i] == frac[i - d - 1] && frac[i - d - 1] in frac;
            }
          }
          if whole != [] {
            assert IsDigit(s[0]);
          } else {
            assert IsDigit(s[d + 1]);
          }
        }
        Some(DigitsValue(whole) as real + DigitsValue(frac) as real / Pow10(|frac|) as real)
  }

  /** The value of Token::Number: the parsed text, or 0.0 when it does not
      parse (unwrap_or(0.0)). */
  function NumberValue(s: string): real
    requires forall i :: 0 <= i < |s| ==> IsNumberChar(s[i])
  {
    match ParseNumber(s)
    case Some(v) => v
    case None => 0.0
  }

  /** The token of a one-character operator or bracket. */
  function Punctuation(c: char): Option<Token> {
    match c
    case '+' => Some(Plus)
    case '-' => Some(Minus)
    case '*' => Some(Star)
    case '/' => Some(Slash)
    case '^' => Some(Caret)
    case '(' => Some(LParen)
    case ')' => Some(RParen)
    case ',' => Some(Comma)
    case _ => None
  }

  /** next_token once whitespace is skipped: the token at the start of t
      (or the panic) and the input left afterwards. */
  function NextTokenAt(t: seq<char>): (res: (Result<Token, LexError>, seq<char>)) {
    if t == [] then (Ok(EOF), [])
    else
      var c := t[0];
      if Punctuation(c).Some? then (Ok(Punctuation(c).value), t[1..])
      else if IsNumberChar(c) then
        var n := RunLength(t, NumberChars);
        (Ok(Number(NumberValue(t[..n]))), t[n..])
      else if IsIdentStart(c) then
        var n := RunLength(t, IdentChars);
        (Ok(Identifier(t[..n])), t[n..])
      else (Err(IllegalCharacter(c)), t)
  }

  /** next_token on the remaining input s: the token (or the panic) and
      the input left afterwards. */
  function NextTokenSpec(s: seq<char>): (res: (Result<Token, LexError>, seq<char>)) {
    NextTokenAt(AfterWhitespace(s))
  }

  /** r is what is left of s once a prefix is taken off. */
  predicate IsSuffix(r: seq<char>, s: seq<char>) {
    |r| <= |s| && r == s[|s| - |r|..]
  }

  /** The token at the start of t consumes a prefix of t, a non-empty one
      for any token but EOF. */
  lemma {:induction false} NextTokenAtRest(t: seq<char>)
    ensures var (r, rest) := NextTokenAt(t);
      IsSuffix(rest, t) && (r.Ok? && r.value != EOF ==> |rest| < |t|)
  {
    if t == [] {
      assert NextTokenAt(t) == (Ok(EOF), []);
    } else if Punctuation(t[0]).Some? {
      assert NextTokenAt(t).1 == t[1..];
      DropIsSuffix(t, 1);
    } else if IsNumberChar(t[0]) {
      var n := RunLength(t, NumberChars);
      assert InClass(t[0], NumberChars);
      assert NextTokenAt(t).1 == t[n..];
      DropIsSuffix(t, n);
    } else if IsIdentStart(t[0]) {
      var n := RunLength(t, IdentChars);
      assert InClass(t[0], IdentChars);
      assert NextTokenAt(t).1 == t[n..];
      DropIsSuffix(t, n);
    } else {
      assert NextTokenAt(t) == (Err(IllegalCharacter(t[0])), t);
      DropIsSuffix(t, 0);
      assert t[0..] == t;
    }
  }

  /** Dropping a prefix leaves a suffix. */
  lemma {:induction false} DropIsSuffix(t: seq<char>, n: nat)
    requires n <= |t|
    ensures IsSuffix(t[n..], t) && |t[n..]| == |t| - n
  {
  }

  /** next_token only consumes input: what is left is a suffix of the
      input, and a strictly shorter one after any token but EOF. */
  lemma {:induction false} NextTokenRest(s: seq<char>)
    ensures var (r, rest) := NextTokenSpec(s);
      |rest| <= |s| && rest == s[|s| - |rest|..] &&
      (r.Ok? && r.value != EOF ==> |rest| < |s|)
  {
    NextTokenSuffix(s);
    NextTokenShrinks(s);
  }

  /** What next_token leaves is a suffix of its input. */
  lemma {:induction false} NextTokenSuffix(s: seq<char>)
    ensures IsSuffix(NextTokenSpec(s).1, s)
  {
    var t := AfterWhitespace(s);
    assert IsSuffix(t, s);
    NextTokenAtRest(t);
    SuffixOfSuffix(s, t, NextTokenAt(t).1);
  }

  /** Any token but EOF consumes input. */
  lemma {:induction false} NextTokenShrinks(s: seq<char>)
    ensures NextTokenSpec(s).0.Ok? && NextTokenSpec(s).0.value != EOF ==> |NextTokenSpec(s).1| < |s|
  {
    NextTokenAtRest(AfterWhitespace(s));
  }

  /** A suffix of a suffix of s is a suffix of s. */
  lemma {:induction false} SuffixOfSuffix(s: seq<char>, t: seq<char>, r: seq<char>)
    requires IsSuffix(t, s) && IsSuffix(r, t)
    ensures IsSuffix(r, s)
  {
    var a, b := |s| - |t|, |t| - |r|;
    assert r == s[a..][b..];
  }

  /** The input is used up, after whitespace, exactly when next_token
      yields EOF; EOF leaves nothing behind, so it repeats forever. */
  lemma {:induction false} EndOfInput(s: seq<char>)
    ensures NextTokenSpec(s).0 == Ok(EOF) <==> forall i :: 0 <= i < |s| ==> IsWhitespace(s[i])
    ensures NextTokenSpec(s).0 == Ok(EOF) ==> NextTokenSpec(s).1 == [] && NextTokenSpec(NextTokenSpec(s).1) == (Ok(EOF), [])
  {
    var t := AfterWhitespace(s);
    if t != [] {
      assert s[|s| - |t|] == t[0];
    }
  }

  /** A run of class k followed by a character outside it has exactly
      the run's length. */
  lemma {:induction false} RunBefore(s: seq<char>, c: char, rest: seq<char>, k: CharClass)
    requires forall i :: 0 <= i < |s| ==> InClass(s[i], k)
    requires !InClass(c, k)
    ensures RunLength(s + [c] + rest, k) == |s|
  {
    var u := s + [c] + rest;
    assert forall i :: 0 <= i < |s| ==> u[i] == s[i];
    assert u[|s|] == c;
  }

  /** After the run of class k, the input is empty or starts outside k. */
  lemma {:induction false} RunEnd(t: seq<char>, k: CharClass)
    ensures var n := RunLength(t, k);
      t[n..] == [] || !InClass(t[n..][0], k)
  {
    var n := RunLength(t, k);
    if n < |t| {
      assert t[n..][0] == t[n];
    }
  }

  /** Each of `+ - * / ^ ( ) ,` is a token of its own: after any
      whitespace, it consumes just that character. */
  lemma {:induction false} PunctuationToken(s: seq<char>, c: char, rest: seq<char>)
    requires c in "+-*/^(),"
    requires forall i :: 0 <= i < |s| ==> IsWhitespace(s[i])
    ensures Punctuation(c).Some?
    ensures NextTokenSpec(s + [c] + rest) == (Ok(Punctuation(c).value), rest)
  {
    var u := s + [c] + rest;
    assert !IsWhitespace(c);
    RunBefore(s, c, rest, Space);
    assert u[|s|..] == [c] + rest;
    assert ([c] + rest)[1..] == rest;
  }

  /** The text of a number token is the longest run of number characters
      at the start of the input (after whitespace): what follows does not
      begin with one. */
  lemma {:induction false} NumberMunch(t: seq<char>)
    requires t != [] && IsNumberChar(t[0])
    ensures var (r, rest) := NextTokenAt(t);
      var n := |t| - |rest|;
      0 < n <= |t| && rest == t[n..] && (forall i :: 0 <= i < n ==> IsNumberChar(t[i])) &&
      (rest == [] || !IsNumberChar(rest[0])) && r == Ok(Number(NumberValue(t[..n])))
  {
    var n := RunLength(t, NumberChars);
    assert Punctuation(t[0]).None?;
    assert NextTokenAt(t) == (Ok(Number(NumberValue(t[..n]))), t[n..]);
    RunEnd(t, NumberChars);
    assert forall i :: 0 <= i < n ==> InClass(t[i], NumberChars);
  }

  /** The text of an identifier token is the longest run of identifier
      characters at the start of the input (after whitespace). */
  lemma {:induction false} IdentifierMunch(t: seq<char>)
    requires t != [] && IsIdentStart(t[0])
    ensures var (r, rest) := NextTokenAt(t);
      var n := |t| - |rest|;
      0 < n <= |t| && rest == t[n..] && (forall i :: 0 <= i < n ==> IsIdentChar(t[i])) &&
      (rest == [] || !IsIdentChar(rest[0])) && r == Ok(Identifier(t[..n]))
  {
    var n := RunLength(t, IdentChars);
    assert Punctuation(t[0]).None? && !IsNumberChar(t[0]);
    assert NextTokenAt(t) == (Ok(Identifier(t[..n])), t[n..]);
    RunEnd(t, IdentChars);
    assert forall i :: 0 <= i < n ==> InClass(t[i], IdentChars);
  }

  /** Any character that is not whitespace, punctuation, a number
      character or an identifier start is refused. */
  lemma {:induction false} IllegalCharacterRule(s: seq<char>)
    ensures var t := AfterWhitespace(s);
      NextTokenSpec(s).0.Err? <==>
        t != [] && Punctuation(t[0]).None? && !IsNumberChar(t[0]) && !IsIdentStart(t[0])
    ensures NextTokenSpec(s).0.Err? ==> NextTokenSpec(s).0.error == IllegalCharacter(AfterWhitespace(s)[0])
  {
  }

  /** A whole number. */
  lemma {:induction false} WholeNumberExample()
    ensures NextTokenSpec("12") == (Ok(Number(12.0)), [])
  {
    assert RunLength("12", Space) == 0;
    assert RunLength("12", NumberChars) == 2;
    assert "12"[..2] == "12";
    assert DigitsValue("12") == 12 by {
      assert "12"[..1] == "1";
    }
  }

  /** The number run of "2.5*x" is "2.5". */
  lemma {:induction false} FractionRun()
    ensures RunLength("2.5*x", NumberChars) == 3
  {
    var t := "2.5*x";
    assert t[1..] == ".5*x" && t[1..][1..] == "5*x" && t[1..][1..][1..] == "*x";
    assert RunLength("*x", NumberChars) == 0;
  }

  /** "2.5" parses as 2.5. */
  lemma {:induction false} FractionValue()
    ensures NumberValue("2.5") == 2.5
  {
    assert DotIndex("2.5") == 1;
    assert "2.5"[..1] == "2" && "2.5"[2..] == "5";
    assert DigitsValue("2") == 2 && DigitsValue("5") == 5;
  }

  /** A fraction, stopping at the operator after it. */
  lemma {:induction false} FractionAt()
    ensures NextTokenAt("2.5*x") == (Ok(Number(2.5)), "*x")
  {
    var t := "2.5*x";
    assert Punctuation(t[0]).None? && IsNumberChar(t[0]);
    FractionRun();
    assert t[..3] == "2.5" && t[3..] == "*x";
    FractionValue();
  }

  /** A fraction after whitespace, stopping at the operator after it. */
  lemma {:induction false} FractionExample()
    ensures NextTokenSpec(" 2.5*x") == (Ok(Number(2.5)), "*x")
  {
    var s := " 2.5*x";
    assert RunLength(s, Space) == 1 by {
      assert s[1..] == "2.5*x";
      assert RunLength(s[1..], Space) == 0;
    }
    assert AfterWhitespace(s) == "2.5*x";
    FractionAt();
  }

  /** "1.2.3" has two dots, so it reads as 0.0. */
  lemma {:induction false} TwoDots()
    ensures NumberValue("1.2.3") == 0.0
  {
    assert "1.2.3"[1] == '.' && "1.2.3"[3] == '.';
    assert !Numeral("1.2.3");
  }

  /** "1.2.3" is one number run. */
  lemma {:induction false} MalformedRun()
    ensures RunLength("1.2.3", NumberChars) == 5
  {
    var t := "1.2.3";
    assert t[1..] == ".2.3" && t[1..][1..] == "2.3" && t[1..][1..][1..] == ".3";
    assert t[1..][1..][1..][1..] == "3" && t[1..][1..][1..][1..][1..] == [];
  }

  /** A run with two dots does not parse and reads as 0.0. */
  lemma {:induction false} MalformedNumberExample()
    ensures NextTokenSpec("1.2.3") == (Ok(Number(0.0)), [])
  {
    var t := "1.2.3";
    assert RunLength(t, Space) == 0;
    assert AfterWhitespace(t) == t;
    assert Punctuation(t[0]).None? && IsNumberChar(t[0]);
    MalformedRun();
    assert t[..5] == t && t[5..] == [];
    TwoDots();
  }

  /** The tokens next_token yields, up to (not including) EOF or the first
      illegal character, and whether the input ran out cleanly. */
  function Tokenize(s: seq<char>): (r: (seq<Token>, Option<LexError>))
    decreases |s|
  {
    NextTokenRest(s);
    var (t, rest) := NextTokenSpec(s);
    match t
    case Err(e) => ([], Some(e))
    case Ok(EOF) => ([], None)
    case Ok(tok) =>
      var (more, end) := Tokenize(rest);
      ([tok] + more, end)
  }

  /** One next_token call unfolds the token list: an error ends it with
      that error, EOF ends it cleanly, any other token heads it. */
  lemma {:induction false} TokenizeStep(s: seq<char>)
    ensures var (t, rest) := NextTokenSpec(s);
      match t
      case Err(e) => Tokenize(s) == ([], Some(e))
      case Ok(tok) =>
        if tok == EOF then Tokenize(s) == ([], None)
        else Tokenize(s) == ([tok] + Tokenize(rest).0, Tokenize(rest).1)
  {
  }

  /** Repeated calls reach EOF: every token consumes input, so there are
      at most as many tokens as characters, and none of them is EOF. */
  lemma {:induction false} TokenizeBound(s: seq<char>)
    ensures |Tokenize(s).0| <= |s|
    ensures forall i :: 0 <= i < |Tokenize(s).0| ==> Tokenize(s).0[i] != EOF
    decreases |s|
  {
    NextTokenRest(s);
    var (t, rest) := NextTokenSpec(s);
    if t.Ok? && t.value != EOF {
      TokenizeBound(rest);
    }
  }

  /** The lexer: the remaining characters of the input (the Peekable
      iterator over the string). */
  class Lexer {
    var input: seq<char>

    constructor (s: string)
      ensures input == s
    {
      input := s;
    }

    /** next_token. */
    method NextToken() returns (t: Result<Token, LexError>)
      modifies this
      ensures (t, input) == NextTokenSpec(old(input))
    {
      SkipWhitespace();
      if input == [] {
        return Ok(EOF);
      }
      var c := input[0];
      match c {
        case '+' => input := input[1..]; return Ok(Plus);
        case '-' => input := input[1..]; return Ok(Minus);
        case '*' => input := input[1..]; return Ok(Star);
        case '/' => input := input[1..]; return Ok(Slash);
        case '^' => input := input[1..]; return Ok(Caret);
        case '(' => input := input[1..]; return Ok(LParen);
        case ')' => input := input[1..]; return Ok(RParen);
        case ',' => input := input[1..]; return Ok(Comma);
        case _ =>
          if IsNumberChar(c) {
            var tok := ReadNumber();
            return Ok(tok);
          } else if IsIdentStart(c) {
            var tok := ReadIdentifier();
            return Ok(tok);
          } else {
            return Err(IllegalCharacter(c));
          }
      }
    }

    /** skip_whitespace. */
    method SkipWhitespace()
      modifies this
      ensures input == AfterWhitespace(old(input))
    {
      ghost var s := input;
      ghost var n := RunLength(s, Space);
      ghost var k := 0;
      while input != [] && IsWhitespace(input[0])
        invariant k <= n && input == s[k..]
        decreases |input|
      {
        input := input[1..];
        k := k + 1;
      }
    }

    /** read_number: the longest run of digits and dots, parsed. */
    method ReadNumber() returns (t: Token)
      modifies this
      ensures var n := RunLength(old(input), NumberChars);
        t == Number(NumberValue(old(input)[..n])) && input == old(input)[n..]
    {
      ghost var s0 := input;
      ghost var n := RunLength(s0, NumberChars);
      var s := "";
      while input != [] && IsNumberChar(input[0])
        invariant |s| <= n && input == s0[|s|..] && s == s0[..|s|]
        decreases |input|
      {
        s := s + [input[0]];
        input := input[1..];
      }
      t := Number(NumberValue(s));
    }

    /** read_identifier: the longest run of identifier characters. */
    method ReadIdentifier() returns (t: Token)
      modifies this
      ensures var n := RunLength(old(input), IdentChars);
        t == Identifier(old(input)[..n]) && input == old(input)[n..]
    {
      ghost var s0 := input;
      ghost var n := RunLength(s0, IdentChars);
      var s := "";
      while input != [] && IsIdentChar(input[0])
        invariant |s| <= n && input == s0[|s|..] && s == s0[..|s|]
        decreases |input|
      {
        s := s + [input[0]];
        input := input[1..];
      }
      t := Identifier(s);
    }
  }
}
