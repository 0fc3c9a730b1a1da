/** The shunting-yard compiler from source text to machine instructions.
    Numbers and identifiers go straight to the output queue (every
    identifier as a LoadGlobal of its symbol-table id, recorded as a
    dependency); operators wait on an operator stack until one of lower
    precedence arrives; parentheses group; a comma flushes the operators of
    the current group. Only + - * / produce instructions: `^` and the
    parentheses produce none, and a unary minus becomes the plain binary
    Sub. */
module Compiling {
  import opened Outcome
  import opened Lexing
  import opened Symbols
  import opened MathValue

  /** The precedence levels, in increasing order of binding strength. */
  datatype Precedence = Lowest | Sum | Product | Power | Prefix | Call

  /** The derived ordering: the position in the declaration. */
  function Rank(p: Precedence): nat {
    match p
    case Lowest => 0
    case Sum => 1
    case Product => 2
    case Power => 3
    case Prefix => 4
    case Call => 5
  }

  /** get_precedence: + and - bind as prefix operators where an operand is
      expected, and as sums elsewhere. */
  function PrecedenceOf(tok: Token, isUnary: bool): Precedence {
    match tok
    case Plus => if isUnary then Prefix else Sum
    case Minus => if isUnary then Prefix else Sum
    case Star => Product
    case Slash => Product
    case Caret => Power
    case LParen => Call
    case _ => Lowest
  }

  /** The tokens that produce an instruction when popped. */
  predicate IsArithToken(t: Token) {
    t.Plus? || t.Minus? || t.Star? || t.Slash?
  }

  /** The tokens handled as operators. */
  predicate IsOperatorToken(t: Token) {
    IsArithToken(t) || t.Caret?
  }

  predicate IsOpen(t: Token) {
    t.LParen?
  }

  /** pop_op_to_queue: the instruction a popped token contributes. */
  function Emit(t: Token): (ops: seq<Op>)
    ensures |ops| == (if IsArithToken(t) then 1 else 0)
    ensures forall i :: 0 <= i < |ops| ==> IsArith(ops[i])
  {
    match t
    case Plus => [Add]
    case Minus => [Sub]
    case Star => [Mul]
    case Slash => [Div]
    case _ => []
  }

  /** An entry of the operator stack: the token and its precedence. */
  datatype Pending = Pending(tok: Token, prec: Precedence)

  /** The two kinds of stack entries that are counted: open parentheses,
      and operators that emit an instruction. */
  datatype Kind = Opening | Arithmetic

  predicate IsKind(t: Token, k: Kind) {
    match k
    case Opening => IsOpen(t)
    case Arithmetic => IsArithToken(t)
  }

  /** The entries of s of kind k. */
  function Count(s: seq<Pending>, k: Kind): nat
    decreases |s|
  {
    if s == [] then 0 else Count(s[..|s| - 1], k) + (if IsKind(s[|s| - 1].tok, k) then 1 else 0)
  }

  /** The instructions emitted by popping every entry of s, top first. */
  function EmitTop(s: seq<Pending>): (ops: seq<Op>)
    ensures |ops| == Count(s, Arithmetic)
    ensures forall i :: 0 <= i < |ops| ==> IsArith(ops[i])
    decreases |s|
  {
    if s == [] then [] else Emit(s[|s| - 1].tok) + EmitTop(s[..|s| - 1])
  }

  /** The operator loop of compile: pops, top first, every entry above the
      nearest LParen whose precedence is at least prec. */
  function PopAbove(stack: seq<Pending>, queue: seq<Op>, prec: Precedence): (res: (seq<Pending>, seq<Op>))
    ensures res.0 <= stack
    ensures res.0 == [] || IsOpen(res.0[|res.0| - 1].tok) || Rank(res.0[|res.0| - 1].prec) < Rank(prec)
    ensures forall i :: |res.0| <= i < |stack| ==> !IsOpen(stack[i].tok) && Rank(stack[i].prec) >= Rank(prec)
    decreases |stack|
  {
    if stack == [] then (stack, queue)
    else
      var top := stack[|stack| - 1];
      if IsOpen(top.tok) || Rank(top.prec) < Rank(prec) then (stack, queue)
      else PopAbove(stack[..|stack| - 1], queue + Emit(top.tok), prec)
  }

  /** Popping the top of s[k..] first emits its instruction, then those
      of the rest. */
  lemma {:induction false} EmitTopLast(s: seq<Pending>, k: nat)
    requires k < |s|
    ensures EmitTop(s[k..]) == Emit(s[|s| - 1].tok) + EmitTop(s[..|s| - 1][k..])
  {
    assert s[k..][..|s| - 1 - k] == s[..|s| - 1][k..];
    assert s[k..][|s| - 1 - k] == s[|s| - 1];
  }

  lemma {:induction false} AppendAssoc(a: seq<Op>, b: seq<Op>, c: seq<Op>)
    ensures (a + b) + c == a + (b + c)
  {
  }

  /** The entries popped by the operator loop go to the queue, top first. */
  lemma {:induction false} PopAboveQueue(stack: seq<Pending>, queue: seq<Op>, prec: Precedence)
    ensures var res := PopAbove(stack, queue, prec);
      res.1 == queue + EmitTop(stack[|res.0|..])
    decreases |stack|
  {
    if stack != [] {
      var top := stack[|stack| - 1];
      if IsOpen(top.tok) || Rank(top.prec) < Rank(prec) {
        assert stack[|stack|..] == [];
      } else {
        var rest := stack[..|stack| - 1];
        PopAboveQueue(rest, queue + Emit(top.tok), prec);
        var k := |PopAbove(rest, queue + Emit(top.tok), prec).0|;
        EmitTopLast(stack, k);
        AppendAssoc(queue, Emit(top.tok), EmitTop(rest[k..]));
      }
    }
  }

  /** The RParen loop of compile: pops down to the nearest LParen and
      removes it, or fails when there is none. */
  function CloseParen(stack: seq<Pending>, queue: seq<Op>): (r: Result<(seq<Pending>, seq<Op>), CompileError>)
    ensures r.Ok? <==> Count(stack, Opening) > 0
    ensures r.Ok? ==>
      var k := |r.value.0|;
      r.value.0 <= stack && k < |stack| && IsOpen(stack[k].tok) &&
      forall i :: k < i < |stack| ==> !IsOpen(stack[i].tok)
    ensures r.Err? ==> r.error == MismatchedParentheses
    decreases |stack|
  {
    if stack == [] then Err(MismatchedParentheses)
    else
      var top := stack[|stack| - 1];
      if IsOpen(top.tok) then Ok((stack[..|stack| - 1], queue))
      else CloseParen(stack[..|stack| - 1], queue + Emit(top.tok))
  }

  /** The entries above the LParen go to the queue, top first. */
  lemma {:induction false} CloseParenQueue(stack: seq<Pending>, queue: seq<Op>)
    ensures var r := CloseParen(stack, queue);
      r.Ok? ==> r.value.1 == queue + EmitTop(stack[|r.value.0| + 1..])
    decreases |stack|
  {
    if stack != [] {
      var top := stack[|stack| - 1];
      if IsOpen(top.tok) {
        assert stack[|stack|..] == [];
      } else {
        var rest := stack[..|stack| - 1];
        CloseParenQueue(rest, queue + Emit(top.tok));
        var r := CloseParen(rest, queue + Emit(top.tok));
        if r.Ok? {
          var k := |r.value.0| + 1;
          EmitTopLast(stack, k);
          AppendAssoc(queue, Emit(top.tok), EmitTop(rest[k..]));
        }
      }
    }
  }

  /** The final loop of compile: pops every entry, failing on an LParen. */
  function Drain(stack: seq<Pending>, queue: seq<Op>): (r: Result<seq<Op>, CompileError>)
    ensures r.Ok? <==> Count(stack, Opening) == 0
    ensures r.Ok? ==> r.value == queue + EmitTop(stack)
    ensures r.Err? ==> r.error == MismatchedParentheses
    decreases |stack|
  {
    if stack == [] then Ok(queue)
    else
      var top := stack[|stack| - 1];
      if IsOpen(top.tok) then Err(MismatchedParentheses)
      else Drain(stack[..|stack| - 1], queue + Emit(top.tok))
  }

  /** The panics of compile: a lexing failure, or unmatched parentheses. */
  datatype CompileError = Lex(e: LexError) | MismatchedParentheses

  datatype CompileResult = CompileResult(ops: seq<Op>, dependencies: seq<nat>)

  /** The local variables of compile between two tokens. */
  datatype State = State(queue: seq<Op>, stack: seq<Pending>, deps: seq<nat>, expectOperand: bool)

  const Init: State := State([], [], [], true)

  /** A number or identifier: its instruction goes straight to the queue. */
  function Operand(st: State, op: Op): State {
    State(st.queue + [op], st.stack, st.deps + (if op.LoadGlobal? then [op.gi] else []), false)
  }

  /** An operator: pops what binds at least as tightly, then waits. */
  function Operator(st: State, tok: Token): State {
    var prec := PrecedenceOf(tok, st.expectOperand);
    var (s, q) := PopAbove(st.stack, st.queue, prec);
    State(q, s + [Pending(tok, prec)], st.deps, true)
  }

  /** An LParen waits on the stack at the lowest precedence. */
  function OpenGroup(st: State): State {
    State(st.queue, st.stack + [Pending(LParen, Lowest)], st.deps, true)
  }

  /** An RParen closes the innermost group. */
  function CloseGroup(st: State): Result<State, CompileError> {
    match CloseParen(st.stack, st.queue)
    case Err(e) => Err(e)
    case Ok(sq) => Ok(State(sq.1, sq.0, st.deps, false))
  }

  /** A comma flushes the operators of the innermost group. */
  function Separate(st: State): State {
    var (s, q) := PopAbove(st.stack, st.queue, Lowest);
    State(q, s, st.deps, true)
  }

  /** One pass of the loop of compile on token tok, with the names of the
      symbol table: the new locals (or the panic) and the new names. */
  function Consume(tok: Token, st: State, names: seq<string>): (res: (Result<State, CompileError>, seq<string>)) {
    match tok
    case Number(v) => (Ok(Operand(st, Push(Num(v)))), names)
    case Identifier(name) =>
      var (id, names') := Intern(names, name);
      (Ok(Operand(st, LoadGlobal(id))), names')
    case LParen => (Ok(OpenGroup(st)), names)
    case RParen => (CloseGroup(st), names)
    case Comma => (Ok(Separate(st)), names)
    case EOF => (Ok(st), names)
    case _ => (Ok(Operator(st, tok)), names)
  }

  /** The loop of compile over a sequence of tokens. */
  function Process(toks: seq<Token>, st: State, names: seq<string>): (res: (Result<State, CompileError>, seq<string>))
    decreases |toks|
  {
    if toks == [] then (Ok(st), names)
    else
      var (r, names') := Consume(toks[0], st, names);
      match r
      case Err(e) => (Err(e), names')
      case Ok(st') => Process(toks[1..], st', names')
  }

  /** compile from the locals st, given the tokens still to come and how
      the lexer ends (cleanly, or with the error it panics on). */
  function Complete(toks: seq<Token>, lexEnd: Option<LexError>, st: State, names: seq<string>)
    : (res: (Result<CompileResult, CompileError>, seq<string>))
  {
    var (r, names') := Process(toks, st, names);
    match r
    case Err(e) => (Err(e), names')
    case Ok(last) =>
      if lexEnd.Some? then (Err(Lex(lexEnd.value)), names')
      else
        match Drain(last.stack, last.queue)
        case Err(e) => (Err(e), names')
        case Ok(ops) => (Ok(CompileResult(ops, last.deps)), names')
  }

  /** compile on source text s with the names of the symbol table. */
  function CompileSource(s: string, names: seq<string>): (Result<CompileResult, CompileError>, seq<string>) {
    var (toks, lexEnd) := Tokenize(s);
    Complete(toks, lexEnd, Init, names)
  }

  /** compile on a token sequence that lexes cleanly. */
  function CompileTokens(toks: seq<Token>): Result<CompileResult, CompileError> {
    Complete(toks, Option.None, Init, []).0
  }

  // ---------------------------------------------------------------------
  // Precedence

  /** The levels are ordered as declared, and a prefix + or - binds
      tighter than every binary operator. */
  lemma {:induction false} PrecedenceOrder(t: Token)
    ensures Rank(Lowest) < Rank(Sum) < Rank(Product) < Rank(Power) < Rank(Prefix) < Rank(Call)
    ensures IsOperatorToken(t) ==> Rank(PrecedenceOf(Minus, true)) > Rank(PrecedenceOf(t, false))
    ensures Rank(PrecedenceOf(Plus, false)) < Rank(PrecedenceOf(Star, false)) < Rank(PrecedenceOf(Caret, false))
  {
  }

  // ---------------------------------------------------------------------
  // Counting lemmas

  lemma {:induction false} CountAppend(a: seq<Pending>, b: seq<Pending>, kind: Kind)
    ensures Count(a + b, kind) == Count(a, kind) + Count(b, kind)
    decreases |b|
  {
    if b == [] {
      assert a + b == a;
    } else {
      var b' := b[..|b| - 1];
      assert (a + b)[..|a + b| - 1] == a + b';
      CountAppend(a, b', kind);
    }
  }

  lemma {:induction false} CountNone(s: seq<Pending>, kind: Kind)
    requires forall i :: 0 <= i < |s| ==> !IsKind(s[i].tok, kind)
    ensures Count(s, kind) == 0
    decreases |s|
  {
    if s != [] {
      CountNone(s[..|s| - 1], kind);
    }
  }

  /** Cutting a stack at k counts the parts separately. */
  lemma {:induction false} CountSplit(s: seq<Pending>, k: nat, kind: Kind)
    requires k <= |s|
    ensures Count(s, kind) == Count(s[..k], kind) + Count(s[k..], kind)
  {
    assert s == s[..k] + s[k..];
    CountAppend(s[..k], s[k..], kind);
  }

  /** Counting around entry k. */
  lemma {:induction false} CountAt(s: seq<Pending>, k: nat, kind: Kind)
    requires k < |s|
    ensures Count(s, kind) == Count(s[..k], kind) + (if IsKind(s[k].tok, kind) then 1 else 0) + Count(s[k + 1..], kind)
  {
    CountSplit(s, k, kind);
    assert s[k..] == [s[k]] + s[k + 1..];
    CountAppend([s[k]], s[k + 1..], kind);
    assert [s[k]][..0] == [];
  }

  /** The LoadGlobal ids of an instruction sequence, in order. */
  function Globals(ops: seq<Op>): seq<nat>
    decreases |ops|
  {
    if ops == [] then []
    else
      var last := ops[|ops| - 1];
      Globals(ops[..|ops| - 1]) + (if last.LoadGlobal? then [last.gi] else [])
  }

  /** Arithmetic instructions add no global. */
  lemma {:induction false} GlobalsArith(q: seq<Op>, e: seq<Op>)
    requires forall i :: 0 <= i < |e| ==> IsArith(e[i])
    ensures Globals(q + e) == Globals(q)
    decreases |e|
  {
    if e == [] {
      assert q + e == q;
    } else {
      var e' := e[..|e| - 1];
      assert (q + e)[..|q + e| - 1] == q + e';
      assert (q + e)[|q + e| - 1] == e[|e| - 1];
      GlobalsArith(q, e');
    }
  }

  /** The change in parenthesis depth a token makes. */
  function Delta(t: Token): int {
    if t.LParen? then 1 else if t.RParen? then -1 else 0
  }

  function Depth(toks: seq<Token>): int
    decreases |toks|
  {
    if toks == [] then 0 else Delta(toks[0]) + Depth(toks[1..])
  }

  /** Starting at depth d, no prefix of toks closes more parentheses than
      are open. */
  predicate NeverBelow(toks: seq<Token>, d: int)
    decreases |toks|
  {
    toks == [] || (d + Delta(toks[0]) >= 0 && NeverBelow(toks[1..], d + Delta(toks[0])))
  }

  /** Every RParen closes an earlier LParen, and every LParen is closed. */
  predicate Balanced(toks: seq<Token>) {
    NeverBelow(toks, 0) && Depth(toks) == 0
  }

  /** The instructions a token contributes, immediately or once popped. */
  function Emits(t: Token): nat {
    if t.Number? || t.Identifier? || IsArithToken(t) then 1 else 0
  }

  function Emitted(toks: seq<Token>): nat
    decreases |toks|
  {
    if toks == [] then 0 else Emits(toks[0]) + Emitted(toks[1..])
  }

  /** The identifiers among toks, in order. */
  function Identifiers(toks: seq<Token>): seq<string>
    decreases |toks|
  {
    if toks == [] then [] else (if toks[0].Identifier? then [toks[0].name] else []) + Identifiers(toks[1..])
  }

  /** Dependency i names identifier i. */
  predicate NamesFor(deps: seq<nat>, idents: seq<string>, names: seq<string>) {
    |deps| == |idents| && forall i :: 0 <= i < |deps| ==> deps[i] < |names| && names[deps[i]] == idents[i]
  }

  /** What the locals account for after the tokens seen so far: the
      instructions queued or still pending, the queue's globals as the
      dependencies, and each dependency naming its identifier. */
  predicate Accounts(st: State, emitted: nat, idents: seq<string>, names: seq<string>) {
    |st.queue| + Count(st.stack, Arithmetic) == emitted &&
    Globals(st.queue) == st.deps &&
    NamesFor(st.deps, idents, names)
  }

  // ---------------------------------------------------------------------
  // One token

  /** Pushing one entry counts it. */
  lemma {:induction false} CountPush(s: seq<Pending>, e: Pending, kind: Kind)
    ensures Count(s + [e], kind) == Count(s, kind) + (if IsKind(e.tok, kind) then 1 else 0)
  {
    assert (s + [e])[..|s|] == s;
  }

  /** Queueing one instruction adds its global, if any. */
  lemma {:induction false} GlobalsPush(q: seq<Op>, op: Op)
    ensures Globals(q + [op]) == Globals(q) + (if op.LoadGlobal? then [op.gi] else [])
  {
    assert (q + [op])[..|q|] == q;
  }

  /** The operator loop keeps the open parentheses, moves instructions from
      the stack to the queue without creating or losing any, and adds no
      global. */
  lemma {:induction false} PopAboveParts(s: seq<Pending>, q: seq<Op>, prec: Precedence)
    ensures var (s', q') := PopAbove(s, q, prec);
      Count(s', Opening) == Count(s, Opening) &&
      |q'| + Count(s', Arithmetic) == |q| + Count(s, Arithmetic) &&
      Globals(q') == Globals(q)
  {
    var (s', q') := PopAbove(s, q, prec);
    var k := |s'|;
    assert s' == s[..k];
    PopAboveQueue(s, q, prec);
    CountSplit(s, k, Opening);
    CountNone(s[k..], Opening);
    CountSplit(s, k, Arithmetic);
    GlobalsArith(q, EmitTop(s[k..]));
  }

  /** The RParen loop removes exactly one open parenthesis and otherwise
      behaves like the operator loop. */
  lemma {:induction false} CloseParenParts(s: seq<Pending>, q: seq<Op>)
    ensures var r := CloseParen(s, q);
      r.Ok? ==>
        Count(r.value.0, Opening) + 1 == Count(s, Opening) &&
        |r.value.1| + Count(r.value.0, Arithmetic) == |q| + Count(s, Arithmetic) &&
        Globals(r.value.1) == Globals(q)
  {
    var r := CloseParen(s, q);
    if r.Ok? {
      var k := |r.value.0|;
      assert r.value.0 == s[..k];
      CloseParenQueue(s, q);
      CloseParenCounts(s, q, k);
      GlobalsArith(q, EmitTop(s[k + 1..]));
    }
  }

  /** The counts on either side of the LParen at k that the RParen loop
      stops at. */
  lemma {:induction false} CloseParenCounts(s: seq<Pending>, q: seq<Op>, k: nat)
    requires k < |s| && IsOpen(s[k].tok)
    requires forall i :: k < i < |s| ==> !IsOpen(s[i].tok)
    ensures Count(s[..k], Opening) + 1 == Count(s, Opening)
    ensures |q + EmitTop(s[k + 1..])| + Count(s[..k], Arithmetic) == |q| + Count(s, Arithmetic)
  {
    CountAt(s, k, Opening);
    CountAt(s, k, Arithmetic);
    CountNone(s[k + 1..], Opening);
  }

  /** An operator keeps the open parentheses. */
  lemma {:induction false} OperatorParens(tok: Token, st: State, names: seq<string>)
    requires IsOperatorToken(tok)
    ensures var r := Consume(tok, st, names).0;
      r.Ok? && Count(r.value.stack, Opening) == Count(st.stack, Opening)
  {
    var prec := PrecedenceOf(tok, st.expectOperand);
    PopAboveParts(st.stack, st.queue, prec);
    CountPush(PopAbove(st.stack, st.queue, prec).0, Pending(tok, prec), Opening);
  }

  /** An RParen fails exactly when no parenthesis is open, and otherwise
      closes one. */
  lemma {:induction false} CloseParens(st: State, names: seq<string>)
    ensures var r := Consume(RParen, st, names).0;
      (r.Ok? <==> Count(st.stack, Opening) > 0) &&
      (r.Ok? ==> Count(r.value.stack, Opening) + 1 == Count(st.stack, Opening))
  {
    CloseParenParts(st.stack, st.queue);
  }

  /** A token changes the number of open parentheses on the stack by its
      Delta, and fails exactly when an RParen finds none open. */
  lemma {:induction false} ConsumeParens(tok: Token, st: State, names: seq<string>)
    ensures var r := Consume(tok, st, names).0;
      (r.Ok? <==> Count(st.stack, Opening) + Delta(tok) >= 0) &&
      (r.Ok? ==> Count(r.value.stack, Opening) == Count(st.stack, Opening) + Delta(tok))
  {
    if tok.RParen? {
      CloseParens(st, names);
    } else if tok.LParen? {
      CountPush(st.stack, Pending(LParen, Lowest), Opening);
    } else if tok.Comma? {
      PopAboveParts(st.stack, st.queue, Lowest);
    } else if IsOperatorToken(tok) {
      OperatorParens(tok, st, names);
    }
  }

  /** A change of the stack and queue that moves instructions without
      creating or losing any and adds no global keeps the accounts. */
  lemma {:induction false} MoveAccounts(st: State, st': State, emitted: nat, idents: seq<string>, names: seq<string>, added: nat)
    requires Accounts(st, emitted, idents, names)
    requires st'.deps == st.deps && Globals(st'.queue) == Globals(st.queue)
    requires |st'.queue| + Count(st'.stack, Arithmetic) == |st.queue| + Count(st.stack, Arithmetic) + added
    ensures Accounts(st', emitted + added, idents, names)
  {
  }

  /** A number queues one instruction and no global. */
  lemma {:induction false} NumberAccounts(tok: Token, st: State, names: seq<string>, emitted: nat, idents: seq<string>)
    requires tok.Number? && Accounts(st, emitted, idents, names)
    ensures var (r, names') := Consume(tok, st, names);
      r.Ok? && names' == names && Accounts(r.value, emitted + Emits(tok), idents, names)
  {
    GlobalsPush(st.queue, Push(Num(tok.value)));
    assert st.deps + [] == st.deps;
  }

  /** An identifier queues the LoadGlobal of its interned id, which names
      it; the ids handed out before keep their names. */
  lemma {:induction false} IdentifierAccounts(tok: Token, st: State, names: seq<string>, emitted: nat, idents: seq<string>)
    requires tok.Identifier? && Accounts(st, emitted, idents, names)
    ensures var (r, names') := Consume(tok, st, names);
      r.Ok? && Accounts(r.value, emitted + Emits(tok), idents + [tok.name], names')
  {
    var name := tok.name;
    InternRoundTrip(names, name);
    var (id, names') := Intern(names, name);
    GlobalsPush(st.queue, LoadGlobal(id));
    var deps := st.deps + [id];
    forall i | 0 <= i < |deps|
      ensures deps[i] < |names'| && names'[deps[i]] == (idents + [name])[i]
    {
      if i < |st.deps| {
        assert names'[..|names|][st.deps[i]] == names[st.deps[i]];
      }
    }
  }

  /** An operator: the popped entries move to the queue, and the operator
      itself waits. */
  lemma {:induction false} OperatorAccounts(tok: Token, st: State, names: seq<string>, emitted: nat, idents: seq<string>)
    requires IsOperatorToken(tok) && Accounts(st, emitted, idents, names)
    ensures var (r, names') := Consume(tok, st, names);
      r.Ok? && names' == names && Accounts(r.value, emitted + Emits(tok), idents, names)
  {
    var prec := PrecedenceOf(tok, st.expectOperand);
    PopAboveParts(st.stack, st.queue, prec);
    CountPush(PopAbove(st.stack, st.queue, prec).0, Pending(tok, prec), Arithmetic);
    MoveAccounts(st, Operator(st, tok), emitted, idents, names, Emits(tok));
  }

  /** An LParen only pushes an entry that emits nothing. */
  lemma {:induction false} OpenAccounts(st: State, names: seq<string>, emitted: nat, idents: seq<string>)
    requires Accounts(st, emitted, idents, names)
    ensures var (r, names') := Consume(LParen, st, names);
      r.Ok? && names' == names && Accounts(r.value, emitted, idents, names)
  {
    CountPush(st.stack, Pending(LParen, Lowest), Arithmetic);
    MoveAccounts(st, OpenGroup(st), emitted, idents, names, 0);
  }

  /** A comma only moves entries from the stack to the queue. */
  lemma {:induction false} SeparateAccounts(st: State, names: seq<string>, emitted: nat, idents: seq<string>)
    requires Accounts(st, emitted, idents, names)
    ensures var (r, names') := Consume(Comma, st, names);
      r.Ok? && names' == names && Accounts(r.value, emitted, idents, names)
  {
    PopAboveParts(st.stack, st.queue, Lowest);
    MoveAccounts(st, Separate(st), emitted, idents, names, 0);
  }

  /** An RParen that finds its LParen only moves entries. */
  lemma {:induction false} CloseAccounts(st: State, names: seq<string>, emitted: nat, idents: seq<string>)
    requires Accounts(st, emitted, idents, names)
    ensures var (r, names') := Consume(RParen, st, names);
      names' == names && (r.Ok? ==> Accounts(r.value, emitted, idents, names))
  {
    CloseParenParts(st.stack, st.queue);
    if CloseGroup(st).Ok? {
      MoveAccounts(st, CloseGroup(st).value, emitted, idents, names, 0);
    }
  }

  /** Each token keeps the accounts: it adds Emits(tok) instructions and
      its identifier if it is one. */
  lemma {:induction false} ConsumeAccounts(tok: Token, st: State, names: seq<string>, emitted: nat, idents: seq<string>)
    requires Accounts(st, emitted, idents, names)
    ensures var (r, names') := Consume(tok, st, names);
      r.Ok? ==> Accounts(r.value, emitted + Emits(tok), if tok.Identifier? then idents + [tok.name] else idents, names')
  {
    if tok.Number? {
      NumberAccounts(tok, st, names, emitted, idents);
    } else if tok.Identifier? {
      IdentifierAccounts(tok, st, names, emitted, idents);
    } else if tok.LParen? {
      OpenAccounts(st, names, emitted, idents);
    } else if tok.RParen? {
      CloseAccounts(st, names, emitted, idents);
    } else if tok.Comma? {
      SeparateAccounts(st, names, emitted, idents);
    } else if tok.EOF? {
      assert Consume(tok, st, names) == (Ok(st), names);
    } else {
      OperatorAccounts(tok, st, names, emitted, idents);
    }
  }

  // ---------------------------------------------------------------------
  // The token loop

  lemma {:induction false} ProcessParens(toks: seq<Token>, st: State, names: seq<string>)
    ensures var r := Process(toks, st, names).0;
      (r.Ok? <==> NeverBelow(toks, Count(st.stack, Opening))) &&
      (r.Ok? ==> Count(r.value.stack, Opening) == Count(st.stack, Opening) + Depth(toks))
    decreases |toks|
  {
    if toks != [] {
      ConsumeParens(toks[0], st, names);
      var (r, names') := Consume(toks[0], st, names);
      if r.Ok? {
        ProcessParens(toks[1..], r.value, names');
      }
    }
  }

  /** The names handed out earlier keep their ids through the loop. */
  lemma {:induction false} ProcessNames(toks: seq<Token>, st: State, names: seq<string>)
    ensures var names' := Process(toks, st, names).1;
      |names'| >= |names| && names'[..|names|] == names
    decreases |toks|
  {
    if toks != [] {
      var t := toks[0];
      var (r, names1) := Consume(t, st, names);
      if t.Identifier? {
        InternRoundTrip(names, t.name);
      }
      if r.Ok? {
        ProcessNames(toks[1..], r.value, names1);
        var names2 := Process(toks[1..], r.value, names1).1;
        assert names2[..|names|] == names2[..|names1|][..|names|];
      }
    }
  }

  /** The identifiers of toks, after those seen before, one token at a
      time. */
  lemma {:induction false} IdentifiersStep(idents: seq<string>, toks: seq<Token>)
    requires toks != []
    ensures (if toks[0].Identifier? then idents + [toks[0].name] else idents) + Identifiers(toks[1..]) ==
            idents + Identifiers(toks)
  {
    if !toks[0].Identifier? {
      assert Identifiers(toks) == [] + Identifiers(toks[1..]);
    }
  }

  lemma {:induction false} ProcessAccounts(toks: seq<Token>, st: State, names: seq<string>, emitted: nat,
                                           idents: seq<string>)
    requires Accounts(st, emitted, idents, names)
    ensures var (r, names') := Process(toks, st, names);
      r.Ok? ==> Accounts(r.value, emitted + Emitted(toks), idents + Identifiers(toks), names')
    decreases |toks|
  {
    if toks == [] {
      assert idents + [] == idents;
    } else {
      var t, rest := toks[0], toks[1..];
      ConsumeAccounts(t, st, names, emitted, idents);
      var (r, names1) := Consume(t, st, names);
      if r.Ok? {
        var idents1 := if t.Identifier? then idents + [t.name] else idents;
        ProcessAccounts(rest, r.value, names1, emitted + Emits(t), idents1);
        assert Process(toks, st, names) == Process(rest, r.value, names1);
        assert emitted + Emits(t) + Emitted(rest) == emitted + Emitted(toks);
        IdentifiersStep(idents, toks);
      }
    }
  }

  // ---------------------------------------------------------------------
  // Whole compilations

  /** compile succeeds exactly when the lexer reaches the end of the text
      and the parentheses of its tokens are balanced. */
  lemma {:induction false} CompileSucceeds(s: string, names: seq<string>)
    ensures CompileSource(s, names).0.Ok? <==> Tokenize(s).1.None? && Balanced(Tokenize(s).0)
  {
    var (toks, lexEnd) := Tokenize(s);
    ProcessParens(toks, Init, names);
    assert Count(Init.stack, Opening) == 0;
  }

  /** A successful compile emits one instruction per number, identifier
      and + - * / token; its dependencies are the LoadGlobal ids of the
      instructions in order, dependency i is the id of the i-th identifier,
      and the names already in the table keep their ids. */
  lemma {:induction false} CompileOutput(s: string, names: seq<string>)
    ensures var (r, names') := CompileSource(s, names);
      var toks := Tokenize(s).0;
      |names'| >= |names| && names'[..|names|] == names &&
      (r.Ok? ==>
         |r.value.ops| == Emitted(toks) &&
         r.value.dependencies == Globals(r.value.ops) &&
         NamesFor(r.value.dependencies, Identifiers(toks), names'))
  {
    var (toks, lexEnd) := Tokenize(s);
    assert Accounts(Init, 0, [], names);
    ProcessAccounts(toks, Init, names, 0, []);
    ProcessNames(toks, Init, names);
    var (r, names') := Process(toks, Init, names);
    assert [] + Identifiers(toks) == Identifiers(toks);
    if r.Ok? && lexEnd.None? && Drain(r.value.stack, r.value.queue).Ok? {
      var last := r.value;
      ProcessParens(toks, Init, names);
      GlobalsArith(last.queue, EmitTop(last.stack));
    }
  }

  // ---------------------------------------------------------------------
  // Worked compilations

  /** A token that does not fail hands the loop on to the next one. */
  lemma {:induction false} ProcessOk(t: Token, rest: seq<Token>, st: State, names: seq<string>, st': State)
    requires Consume(t, st, names) == (Ok(st'), names)
    ensures Process([t] + rest, st, names) == Process(rest, st', names)
  {
    assert ([t] + rest)[0] == t && ([t] + rest)[1..] == rest;
  }

  /** One pass of the loop: a failing token ends the compilation with its
      error, any other hands on its new locals and names. */
  lemma {:induction false} CompleteStep(t: Token, toks: seq<Token>, lexEnd: Option<LexError>, st: State, names: seq<string>)
    ensures var (r, names1) := Consume(t, st, names);
      Complete([t] + toks, lexEnd, st, names) ==
        (if r.Err? then (Err(r.error), names1) else Complete(toks, lexEnd, r.value, names1))
  {
    assert ([t] + toks)[0] == t && ([t] + toks)[1..] == toks;
  }

  /** One pass of the loop of compile on the text still to read: a token
      other than EOF is consumed and compile continues on what follows it. */
  lemma {:induction false} CompileLoopStep(prev: string, token: Token, rest: string, st: State, names: seq<string>)
    requires NextTokenSpec(prev) == (Ok(token), rest) && token != EOF
    ensures var (r, names1) := Consume(token, st, names);
      Complete(Tokenize(prev).0, Tokenize(prev).1, st, names) ==
        (if r.Err? then (Err(r.error), names1) else Complete(Tokenize(rest).0, Tokenize(rest).1, r.value, names1))
  {
    TokenizeStep(prev);
    CompleteStep(token, Tokenize(rest).0, Tokenize(rest).1, st, names);
  }

  /** Where the loop of compile stops: a lexical error is reported as it is,
      and at EOF the operator stack is emptied. */
  lemma {:induction false} CompileLoopEnd(prev: string, st: State, names: seq<string>)
    ensures match NextTokenSpec(prev).0
      case Err(e) => Complete(Tokenize(prev).0, Tokenize(prev).1, st, names) == (Err(Lex(e)), names)
      case Ok(tok) =>
        tok == EOF ==>
          Complete(Tokenize(prev).0, Tokenize(prev).1, st, names) ==
            match Drain(st.stack, st.queue)
            case Err(e) => (Err(e), names)
            case Ok(ops) => (Ok(CompileResult(ops, st.deps)), names)
  {
    TokenizeStep(prev);
  }

  /** The stack loops on a stack of one or two entries. */
  lemma {:induction false} SmallStacks(p1: Pending, p2: Pending, q: seq<Op>, prec: Precedence)
    ensures !IsOpen(p1.tok) ==> Drain([p1], q) == Ok(q + Emit(p1.tok))
    ensures !IsOpen(p1.tok) && !IsOpen(p2.tok) ==> Drain([p1, p2], q) == Ok(q + Emit(p2.tok) + Emit(p1.tok))
    ensures !IsOpen(p1.tok) && Rank(p1.prec) >= Rank(prec) ==> PopAbove([p1], q, prec) == ([], q + Emit(p1.tok))
    ensures IsOpen(p1.tok) && !IsOpen(p2.tok) ==> CloseParen([p1, p2], q) == Ok(([], q + Emit(p2.tok)))
  {
    assert [p1][..0] == [] && [p1, p2][..1] == [p1];
    if !IsOpen(p1.tok) && !IsOpen(p2.tok) {
      assert Drain([p1, p2], q) == Drain([p1], q + Emit(p2.tok));
      assert Drain([p1], q + Emit(p2.tok)) == Drain([], q + Emit(p2.tok) + Emit(p1.tok));
    }
  }

  /** An operator followed by a number: the operator is handled, then the
      number goes to the queue. */
  lemma {:induction false} OperatorOperand(st: State, o: Token, c: real, rest: seq<Token>)
    requires IsOperatorToken(o)
    ensures Process([o, Number(c)] + rest, st, []) == Process(rest, Operand(Operator(st, o), Push(Num(c))), [])
  {
    var s1 := Operator(st, o);
    ProcessOk(o, [Number(c)] + rest, st, [], s1);
    ProcessOk(Number(c), rest, s1, [], Operand(s1, Push(Num(c))));
    assert [o, Number(c)] + rest == [o] + ([Number(c)] + rest);
  }

  /** a o b leaves both numbers on the queue and the operator waiting. */
  lemma {:induction false} Infix(a: real, o: Token, b: real, rest: seq<Token>)
    requires IsOperatorToken(o)
    ensures var s3 := Operand(Operator(Operand(Init, Push(Num(a))), o), Push(Num(b)));
      Process([Number(a), o, Number(b)] + rest, Init, []) == Process(rest, s3, []) &&
      s3 == State([Push(Num(a)), Push(Num(b))], [Pending(o, PrecedenceOf(o, false))], [], false)
  {
    var s1 := Operand(Init, Push(Num(a)));
    ProcessOk(Number(a), [o, Number(b)] + rest, Init, [], s1);
    OperatorOperand(s1, o, b, rest);
    assert [Number(a), o, Number(b)] + rest == [Number(a)] + ([o, Number(b)] + rest);
    var s2 := Operator(s1, o);
    assert s1 == State([Push(Num(a))], [], [], false);
    assert s2 == State([Push(Num(a))], [Pending(o, PrecedenceOf(o, false))], [], true);
  }

  /** The loop on a o1 b o2 c ends with the locals after o2 and c, from
      a state where a and b are on the queue and o1 waits. */
  lemma {:induction false} TwoOperators(a: real, b: real, c: real, o1: Token, o2: Token)
    requires IsOperatorToken(o1) && IsOperatorToken(o2)
    ensures var s3 := State([Push(Num(a)), Push(Num(b))], [Pending(o1, PrecedenceOf(o1, false))], [], false);
      Process([Number(a), o1, Number(b), o2, Number(c)], Init, []) == (Ok(Operand(Operator(s3, o2), Push(Num(c)))), [])
  {
    var s3 := State([Push(Num(a)), Push(Num(b))], [Pending(o1, PrecedenceOf(o1, false))], [], false);
    var s5 := Operand(Operator(s3, o2), Push(Num(c)));
    var toks := [Number(a), o1, Number(b), o2, Number(c)];
    FiveTokens(Number(a), o1, Number(b), o2, Number(c));
    Infix(a, o1, b, [o2, Number(c)]);
    assert Process(toks, Init, []) == Process([o2, Number(c)], s3, []);
    OperatorOperand(s3, o2, c, []);
    assert Process([o2, Number(c)], s3, []) == Process([], s5, []);
  }

  /** Two ways of splitting a five-token sequence. */
  lemma {:induction false} FiveTokens(t1: Token, t2: Token, t3: Token, t4: Token, t5: Token)
    ensures [t1, t2, t3, t4, t5] == [t1, t2, t3] + [t4, t5]
    ensures [t4, t5] + [] == [t4, t5]
  {
  }

  /** a o1 b o2 c where o1 binds at least as tightly as o2: o1 is applied
      first (left associativity for equal precedence). */
  lemma {:induction false} LeftFirst(a: real, b: real, c: real, o1: Token, o2: Token)
    requires IsOperatorToken(o1) && IsOperatorToken(o2)
    requires Rank(PrecedenceOf(o1, false)) >= Rank(PrecedenceOf(o2, false))
    ensures CompileTokens([Number(a), o1, Number(b), o2, Number(c)]) ==
            Ok(CompileResult([Push(Num(a)), Push(Num(b))] + Emit(o1) + [Push(Num(c))] + Emit(o2), []))
  {
    var p1, p2 := PrecedenceOf(o1, false), PrecedenceOf(o2, false);
    var q := [Push(Num(a)), Push(Num(b))];
    var s3 := State(q, [Pending(o1, p1)], [], false);
    TwoOperators(a, b, c, o1, o2);
    SmallStacks(Pending(o1, p1), Pending(o2, p2), q, p2);
    var q5 := q + Emit(o1) + [Push(Num(c))];
    SmallStacks(Pending(o2, p2), Pending(o2, p2), q5, p2);
    var s5 := Operand(Operator(s3, o2), Push(Num(c)));
    assert s5 == State(q5, [Pending(o2, p2)], [], false);
  }

  /** a o1 b o2 c where o2 binds more tightly than o1: o2 is applied
      first. */
  lemma {:induction false} RightFirst(a: real, b: real, c: real, o1: Token, o2: Token)
    requires IsOperatorToken(o1) && IsOperatorToken(o2)
    requires Rank(PrecedenceOf(o1, false)) < Rank(PrecedenceOf(o2, false))
    ensures CompileTokens([Number(a), o1, Number(b), o2, Number(c)]) ==
            Ok(CompileResult([Push(Num(a)), Push(Num(b)), Push(Num(c))] + Emit(o2) + Emit(o1), []))
  {
    var p1, p2 := PrecedenceOf(o1, false), PrecedenceOf(o2, false);
    var q := [Push(Num(a)), Push(Num(b))];
    var s3 := State(q, [Pending(o1, p1)], [], false);
    TwoOperators(a, b, c, o1, o2);
    assert PopAbove(s3.stack, q, p2) == (s3.stack, q);
    var s5 := Operand(Operator(s3, o2), Push(Num(c)));
    var q5 := q + [Push(Num(c))];
    assert q5 == [Push(Num(a)), Push(Num(b)), Push(Num(c))];
    assert s5 == State(q5, [Pending(o1, p1), Pending(o2, p2)], [], false);
    SmallStacks(Pending(o1, p1), Pending(o2, p2), q5, p2);
  }

  /** A negated operand compiles to the operand followed by a binary
      Sub, a program with a single operand. */
  lemma {:induction false} UnaryMinus(x: real)
    ensures CompileTokens([Minus, Number(x)]) == Ok(CompileResult([Push(Num(x)), Sub], []))
  {
    OperatorOperand(Init, Minus, x, []);
    assert [Minus, Number(x)] == [Minus, Number(x)] + [];
    var s2 := Operand(Operator(Init, Minus), Push(Num(x)));
    assert s2 == State([Push(Num(x))], [Pending(Minus, Prefix)], [], false);
    SmallStacks(Pending(Minus, Prefix), Pending(Minus, Prefix), [Push(Num(x))], Prefix);
    assert [Push(Num(x))] + Emit(Minus) == [Push(Num(x)), Sub];
  }

  /** A number queued with no dependencies so far. */
  lemma {:induction false} NumberOperand(q: seq<Op>, stack: seq<Pending>, waiting: bool, v: real)
    ensures Operand(State(q, stack, [], waiting), Push(Num(v))) == State(q + [Push(Num(v))], stack, [], false)
  {
    var none: seq<nat> := [];
    assert none + [] == none;
  }

  /** An operator right after an LParen pops nothing. */
  lemma {:induction false} OperatorOnOpen(st: State, tok: Token)
    requires st.stack != [] && IsOpen(st.stack[|st.stack| - 1].tok)
    ensures Operator(st, tok) ==
            State(st.queue, st.stack + [Pending(tok, PrecedenceOf(tok, st.expectOperand))], st.deps, true)
  {
  }

  /** The locals inside (a + b) before the RParen. */
  lemma {:induction false} GroupOpen(a: real, b: real)
    ensures Operand(Operator(Operand(OpenGroup(Init), Push(Num(a))), Plus), Push(Num(b))) ==
            State([Push(Num(a)), Push(Num(b))], [Pending(LParen, Lowest), Pending(Plus, Sum)], [], false)
  {
    var open, plus := Pending(LParen, Lowest), Pending(Plus, Sum);
    OneEntry(open);
    var s1 := OpenGroup(Init);
    assert s1 == State([], [open], [], true);
    NumberOperand([], [open], true, a);
    OneOp(Push(Num(a)));
    var s2 := Operand(s1, Push(Num(a)));
    assert s2 == State([Push(Num(a))], [open], [], false);
    OperatorOnOpen(s2, Plus);
    var s3 := Operator(s2, Plus);
    assert s3 == State([Push(Num(a))], [open, plus], [], true);
    NumberOperand([Push(Num(a))], [open, plus], true, b);
  }

  /** Appending to an empty stack. */
  lemma {:induction false} OneEntry(p: Pending)
    ensures [] + [p] == [p]
  {
  }

  /** Appending to an empty queue. */
  lemma {:induction false} OneOp(op: Op)
    ensures [] + [op] == [op]
  {
  }

  /** The RParen of (a + b) queues the sum and removes the LParen. */
  lemma {:induction false} GroupClose(a: real, b: real)
    ensures CloseGroup(State([Push(Num(a)), Push(Num(b))], [Pending(LParen, Lowest), Pending(Plus, Sum)], [], false)) ==
            Ok(State([Push(Num(a)), Push(Num(b)), Add], [], [], false))
  {
    var q4 := [Push(Num(a)), Push(Num(b))];
    SmallStacks(Pending(LParen, Lowest), Pending(Plus, Sum), q4, Sum);
    assert q4 + Emit(Plus) == [Push(Num(a)), Push(Num(b)), Add];
  }

  /** (a + b) leaves the sum on the queue and nothing on the stack. */
  lemma {:induction false} GroupedSum(a: real, b: real, rest: seq<Token>)
    ensures Process([LParen, Number(a), Plus, Number(b), RParen] + rest, Init, []) ==
            Process(rest, State([Push(Num(a)), Push(Num(b)), Add], [], [], false), [])
  {
    var s1 := OpenGroup(Init);
    var s2 := Operand(s1, Push(Num(a)));
    var s4 := Operand(Operator(s2, Plus), Push(Num(b)));
    GroupOpen(a, b);
    GroupClose(a, b);
    var r3 := [RParen] + rest;
    var r2 := [Plus, Number(b)] + r3;
    var r1 := [Number(a)] + r2;
    GroupTokens(a, b, rest);
    ProcessOk(LParen, r1, Init, [], s1);
    ProcessOk(Number(a), r2, s1, [], s2);
    OperatorOperand(s2, Plus, b, r3);
    ProcessOk(RParen, rest, s4, [], CloseGroup(s4).value);
    assert Process([LParen] + r1, Init, []) == Process(r1, s1, []);
    assert Process(r1, s1, []) == Process(r2, s2, []);
    assert Process(r2, s2, []) == Process(r3, s4, []);
  }

  /** The tokens of (a + b), split as the loop reads them. */
  lemma {:induction false} GroupTokens(a: real, b: real, rest: seq<Token>)
    ensures [LParen, Number(a), Plus, Number(b), RParen] + rest ==
            [LParen] + ([Number(a)] + ([Plus, Number(b)] + ([RParen] + rest)))
  {
  }

  /** An operator and then a number, on an empty stack. */
  lemma {:induction false} OnEmptyStack(q: seq<Op>, tok: Token, c: real)
    ensures Operand(Operator(State(q, [], [], false), tok), Push(Num(c))) ==
            State(q + [Push(Num(c))], [Pending(tok, PrecedenceOf(tok, false))], [], false)
  {
    assert PopAbove([], q, PrecedenceOf(tok, false)) == ([], q);
    assert [] + [Pending(tok, PrecedenceOf(tok, false))] == [Pending(tok, PrecedenceOf(tok, false))];
  }

  /** A loop that ends in locals st compiles to what draining st gives. */
  lemma {:induction false} CompileFromProcess(toks: seq<Token>, st: State)
    requires Process(toks, Init, []) == (Ok(st), [])
    ensures CompileTokens(toks) ==
            match Drain(st.stack, st.queue)
            case Err(e) => Err(e)
            case Ok(ops) => Ok(CompileResult(ops, st.deps))
  {
  }

  /** The loop on (a + b) * c ends with the sum and c queued and the
      product waiting. */
  lemma {:induction false} GroupingLoop(a: real, b: real, c: real)
    ensures Process([LParen, Number(a), Plus, Number(b), RParen, Star, Number(c)], Init, []) ==
            (Ok(State([Push(Num(a)), Push(Num(b)), Add, Push(Num(c))], [Pending(Star, Product)], [], false)), [])
  {
    var q5 := [Push(Num(a)), Push(Num(b)), Add];
    var s5 := State(q5, [], [], false);
    GroupedSum(a, b, [Star, Number(c)]);
    OperatorOperand(s5, Star, c, []);
    assert [LParen, Number(a), Plus, Number(b), RParen, Star, Number(c)] ==
           [LParen, Number(a), Plus, Number(b), RParen] + [Star, Number(c)];
    assert [Star, Number(c)] + [] == [Star, Number(c)];
    OnEmptyStack(q5, Star, c);
    assert q5 + [Push(Num(c))] == [Push(Num(a)), Push(Num(b)), Add, Push(Num(c))];
  }

  /** (a + b) * c: the parentheses make the sum come first. */
  lemma {:induction false} Grouping(a: real, b: real, c: real)
    ensures CompileTokens([LParen, Number(a), Plus, Number(b), RParen, Star, Number(c)]) ==
            Ok(CompileResult([Push(Num(a)), Push(Num(b)), Add, Push(Num(c)), Mul], []))
  {
    var q := [Push(Num(a)), Push(Num(b)), Add, Push(Num(c))];
    GroupingLoop(a, b, c);
    CompileFromProcess([LParen, Number(a), Plus, Number(b), RParen, Star, Number(c)],
                       State(q, [Pending(Star, Product)], [], false));
    SmallStacks(Pending(Star, Product), Pending(Star, Product), q, Product);
    assert q + Emit(Star) == [Push(Num(a)), Push(Num(b)), Add, Push(Num(c)), Mul];
  }

  // ---------------------------------------------------------------------
  // The stack loops, on the locals of compile

  /** The operator loop. */
  method PopOperators(stack: seq<Pending>, queue: seq<Op>, prec: Precedence) returns (s: seq<Pending>, q: seq<Op>)
    ensures (s, q) == PopAbove(stack, queue, prec)
  {
    s, q := stack, queue;
    while s != []
      invariant PopAbove(stack, queue, prec) == PopAbove(s, q, prec)
      decreases |s|
    {
      var top := s[|s| - 1];
      if IsOpen(top.tok) {
        break;
      }
      if Rank(top.prec) >= Rank(prec) {
        s := s[..|s| - 1];
        q := q + Emit(top.tok);
      } else {
        break;
      }
    }
  }

  /** The RParen loop. */
  method PopToParen(stack: seq<Pending>, queue: seq<Op>) returns (r: Result<(seq<Pending>, seq<Op>), CompileError>)
    ensures r == CloseParen(stack, queue)
  {
    var s, q := stack, queue;
    var foundParen := false;
    while s != []
      invariant CloseParen(stack, queue) == CloseParen(s, q)
      decreases |s|
    {
      var top := s[|s| - 1];
      s := s[..|s| - 1];
      if IsOpen(top.tok) {
        foundParen := true;
        break;
      }
      q := q + Emit(top.tok);
    }
    if !foundParen {
      return Err(MismatchedParentheses);
    }
    return Ok((s, q));
  }

  /** The comma loop: pops down to, not including, the nearest LParen; it
      is the operator loop at the lowest precedence. */
  method PopToOpen(stack: seq<Pending>, queue: seq<Op>) returns (s: seq<Pending>, q: seq<Op>)
    ensures (s, q) == PopAbove(stack, queue, Lowest)
  {
    s, q := stack, queue;
    while s != [] && !IsOpen(s[|s| - 1].tok)
      invariant PopAbove(stack, queue, Lowest) == PopAbove(s, q, Lowest)
      decreases |s|
    {
      q := q + Emit(s[|s| - 1].tok);
      s := s[..|s| - 1];
    }
  }

  /** The final loop. */
  method DrainStack(stack: seq<Pending>, queue: seq<Op>) returns (r: Result<seq<Op>, CompileError>)
    ensures r == Drain(stack, queue)
  {
    var s, q := stack, queue;
    while s != []
      invariant Drain(stack, queue) == Drain(s, q)
      decreases |s|
    {
      var top := s[|s| - 1];
      s := s[..|s| - 1];
      if IsOpen(top.tok) {
        return Err(MismatchedParentheses);
      }
      q := q + Emit(top.tok);
    }
    return Ok(q);
  }

  /** A compiler: the lexer over its input and the symbol table it
      interns identifiers in. */
  class Compiler {
    var lexer: Lexer
    var table: SymbolTable

    /** Compiler::new */
    constructor (input: string, t: SymbolTable)
      ensures fresh(lexer) && lexer.input == input && table == t
    {
      lexer := new Lexer(input);
      table := t;
    }

    /** The body of the loop of compile for one token. */
    method Handle(tok: Token, st: State) returns (r: Result<State, CompileError>)
      requires table.Valid()
      modifies table
      ensures table.Valid()
      ensures (r, table.idToName) == Consume(tok, st, old(table.idToName))
    {
      match tok {
        case Number(v) =>
          assert st.deps + [] == st.deps;
          return Ok(State(st.queue + [Push(Num(v))], st.stack, st.deps, false));
        case Identifier(name) =>
          var id := table.GetOrCreateId(name);
          return Ok(State(st.queue + [LoadGlobal(id)], st.stack, st.deps + [id], false));
        case LParen =>
          return Ok(st.(stack := st.stack + [Pending(LParen, Lowest)], expectOperand := true));
        case RParen =>
          var c := PopToParen(st.stack, st.queue);
          if c.Err? {
            return Err(c.error);
          }
          return Ok(State(c.value.1, c.value.0, st.deps, false));
        case Comma =>
          var s, q := PopToOpen(st.stack, st.queue);
          return Ok(State(q, s, st.deps, true));
        case EOF =>
          return Ok(st);
        case _ =>
          var prec := PrecedenceOf(tok, st.expectOperand);
          var s, q := PopOperators(st.stack, st.queue, prec);
          return Ok(State(q, s + [Pending(tok, prec)], st.deps, true));
      }
    }

    /** compile: reads tokens until EOF, then empties the operator stack. */
    method Compile() returns (r: Result<CompileResult, CompileError>)
      requires table.Valid()
      modifies lexer, table
      ensures table.Valid()
      ensures (r, table.idToName) == CompileSource(old(lexer.input), old(table.idToName))
    {
      ghost var prev := lexer.input;
      var t := lexer.NextToken();
      NextTokenRest(prev);
      CompileLoopEnd(prev, Init, table.idToName);
      if t.Err? {
        return Err(Lex(t.error));
      }
      var token := t.value;
      var st := Init;
      while token != EOF
        invariant table.Valid()
        invariant (Ok(token), lexer.input) == NextTokenSpec(prev)
        invariant token != EOF ==> |lexer.input| < |prev|
        invariant CompileSource(old(lexer.input), old(table.idToName)) ==
                  Complete(Tokenize(prev).0, Tokenize(prev).1, st, table.idToName)
        decreases |prev|
      {
        CompileLoopStep(prev, token, lexer.input, st, table.idToName);
        var next := Handle(token, st);
        if next.Err? {
          return Err(next.error);
        }
        st := next.value;
        prev := lexer.input;
        t := lexer.NextToken();
        NextTokenRest(prev);
        CompileLoopEnd(prev, st, table.idToName);
        if t.Err? {
          return Err(Lex(t.error));
        }
        token := t.value;
      }
      CompileLoopEnd(prev, st, table.idToName);
      var ops := DrainStack(st.stack, st.queue);
      if ops.Err? {
        return Err(ops.error);
      }
      return Ok(CompileResult(ops.value, st.deps));
    }
  }
}
