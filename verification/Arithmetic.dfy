/**
 * The arithmetic of summaries: infix text to postfix tokens to a tree, over `+ - * /` and the
 * rounding prefix `~`. packages/postgres/src/PostgresQuery.ts and packages/mongodb/src/MongoQuery.ts.
 */
module Arithmetic {
  import opened Wrappers

  // --- Characters ---

  predicate IsOperator(c: char) {
    c in {'+', '-', '*', '/', '(', ')', '~'}
  }

  /** What `\s` matches: the white space and line ends of ECMA-262 (sections 12.2 and 12.3). */
  predicate IsSpace(c: char) {
    var u := c as int;
    || 0x9 <= u <= 0xD || 0x2000 <= u <= 0x200A
    || u in {0x20, 0xA0, 0x1680, 0x2028, 0x2029, 0x202F, 0x205F, 0x3000, 0xFEFF}
  }

  /** Tab to carriage return, the space, and the space separators of Unicode with the byte order mark. */
  lemma SpacesAre(c: char)
    ensures IsSpace(c) <==> c as int in {
      0x9, 0xA, 0xB, 0xC, 0xD, 0x20, 0xA0, 0x1680, 0x2000, 0x2001, 0x2002, 0x2003, 0x2004, 0x2005, 0x2006, 0x2007,
      0x2008, 0x2009, 0x200A, 0x2028, 0x2029, 0x202F, 0x205F, 0x3000, 0xFEFF}
  {
  }

  function Precedence(op: char): nat {
    if op == '~' then 3
    else if op == '+' || op == '-' then 1
    else if op == '*' || op == '/' then 2
    else 0
  }

  // --- The tree an expression stands for ---

  datatype Tree = Leaf(name: string) | Round(tree: Tree) | Op(op: char, left: Tree, right: Tree)

  /** An expression as written, parentheses included. */
  datatype Infix =
    | Name(name: string)
    | Paren(inner: Infix)
    | Tilde(inner: Infix)
    | Binary(left: Infix, op: char, right: Infix)

  const ATOM := 4

  /** How tightly the expression holds together as written. */
  function Level(e: Infix): nat {
    match e
    case Name(_) => ATOM
    case Paren(_) => ATOM
    case Tilde(_) => 3
    case Binary(_, op, _) => Precedence(op)
  }

  /**
   * Written with at least the parentheses it needs: operators of one precedence group to the left,
   * `~` binds tightest and stands before a name, a parenthesis or another `~`.
   */
  predicate WellFormed(e: Infix) {
    match e
    case Name(name) => name != "" && forall c <- name :: !IsOperator(c) && !IsSpace(c)
    case Paren(inner) => WellFormed(inner)
    case Tilde(inner) => WellFormed(inner) && Level(inner) >= 3
    case Binary(left, op, right) =>
      op in {'+', '-', '*', '/'} && WellFormed(left) && WellFormed(right)
      && Level(left) >= Precedence(op) && Level(right) > Precedence(op)
  }

  /** Somewhere a `~` stands right before another. */
  predicate Doubled(e: Infix) {
    match e
    case Name(_) => false
    case Paren(inner) => Doubled(inner)
    case Tilde(inner) => inner.Tilde? || Doubled(inner)
    case Binary(left, _, right) => Doubled(left) || Doubled(right)
  }

  function Text(e: Infix): string {
    match e
    case Name(name) => name
    case Paren(inner) => "(" + Text(inner) + ")"
    case Tilde(inner) => "~" + Text(inner)
    case Binary(left, op, right) => Text(left) + [op] + Text(right)
  }

  function TreeOf(e: Infix): Tree {
    match e
    case Name(name) => Leaf(name)
    case Paren(inner) => TreeOf(inner)
    case Tilde(inner) => Round(TreeOf(inner))
    case Binary(left, op, right) => Op(op, TreeOf(left), TreeOf(right))
  }

  /** The least parentheses a tree needs. */
  function Written(t: Tree): Infix {
    match t
    case Leaf(name) => Name(name)
    case Round(tree) => var inner := Written(tree); Tilde(if Level(inner) == ATOM then inner else Paren(inner))
    case Op(op, left, right) =>
      var l, r := Written(left), Written(right);
      Binary(if Level(l) >= Precedence(op) then l else Paren(l), op, if Level(r) > Precedence(op) then r else Paren(r))
  }

  predicate GoodTree(t: Tree) {
    match t
    case Leaf(name) => name != "" && forall c <- name :: !IsOperator(c) && !IsSpace(c)
    case Round(tree) => GoodTree(tree)
    case Op(op, left, right) => op in {'+', '-', '*', '/'} && GoodTree(left) && GoodTree(right)
  }

  lemma {:induction false} WrittenIsWellFormed(t: Tree)
    requires GoodTree(t)
    ensures WellFormed(Written(t)) && !Doubled(Written(t)) && TreeOf(Written(t)) == t
  {
    match t
    case Leaf(_) =>
    case Round(tree) => WrittenIsWellFormed(tree);
    case Op(_, left, right) =>
      WrittenIsWellFormed(left);
      WrittenIsWellFormed(right);
  }

  /** No parentheses could be left out: without them the operator outside would take what is inside apart. */
  predicate Tight(e: Infix) {
    match e
    case Name(_) => true
    case Paren(inner) => false
    case Tilde(inner) => if inner.Paren? then Level(inner.inner) < ATOM && Tight(inner.inner) else Tight(inner)
    case Binary(left, op, right) =>
      && (if left.Paren? then Level(left.inner) < Precedence(op) && Tight(left.inner) else Tight(left))
      && (if right.Paren? then Level(right.inner) <= Precedence(op) && Tight(right.inner) else Tight(right))
  }

  lemma {:induction false} WrittenIsTight(t: Tree)
    requires GoodTree(t)
    ensures Tight(Written(t)) && !Written(t).Paren?
    decreases t
  {
    match t
    case Leaf(_) =>
    case Round(tree) => WrittenIsTight(tree);
    case Op(_, left, right) =>
      WrittenIsTight(left);
      WrittenIsTight(right);
  }

  // --- The shunting-yard ---

  /** Operators waiting, tokens written, the name being read. */
  datatype Yard = Yard(stack: string, output: seq<string>, current: string)

  function Flushed(output: seq<string>, current: string): seq<string> {
    if current == "" then output else output + [current]
  }

  /** Move operators off the stack while the top binds at least as tightly as `least`. */
  function PopTighter(stack: string, output: seq<string>, least: nat): (string, seq<string>) {
    if stack != "" && least <= Precedence(stack[|stack| - 1])
    then PopTighter(stack[..|stack| - 1], output + [[stack[|stack| - 1]]], least)
    else (stack, output)
  }

  function PopToParen(stack: string, output: seq<string>): (string, seq<string>) {
    if stack != "" && stack[|stack| - 1] != '('
    then PopToParen(stack[..|stack| - 1], output + [[stack[|stack| - 1]]])
    else (stack, output)
  }

  function Popped(stack: string): string {
    if stack == "" then "" else stack[..|stack| - 1]
  }

  function Opened(y: Yard): Yard {
    Yard(y.stack + "(", Flushed(y.output, y.current), "")
  }

  function Closed(y: Yard): Yard {
    var (stack, written) := PopToParen(y.stack, Flushed(y.output, y.current));
    Yard(Popped(stack), written, "")
  }

  function Operated(y: Yard, c: char): Yard {
    var (stack, written) := PopTighter(y.stack, Flushed(y.output, y.current), Precedence(c));
    Yard(stack + [c], written, "")
  }

  function Step(y: Yard, c: char): Yard {
    if c == '(' then Opened(y)
    else if c == ')' then Closed(y)
    else if IsOperator(c) then Operated(y, c)
    else if IsSpace(c) then y
    else y.(current := y.current + [c])
  }

  function Feed(y: Yard, text: string): Yard {
    if text == "" then y else Step(Feed(y, text[..|text| - 1]), text[|text| - 1])
  }

  function Drained(stack: string, output: seq<string>): seq<string> {
    if stack == "" then output else Drained(stack[..|stack| - 1], output + [[stack[|stack| - 1]]])
  }

  function Postfix(text: string): seq<string> {
    var y := Feed(Yard("", [], ""), text);
    Drained(y.stack, Flushed(y.output, y.current))
  }

  /** `#infix_to_postfix` */
  method InfixToPostfix(expression: string) returns (output: seq<string>)
    ensures output == Postfix(expression)
  {
    var stack, current := "", "";
    output := [];
    var i := 0;
    assert expression[..0] == "";
    while i < |expression|
      invariant 0 <= i <= |expression|
      invariant Yard(stack, output, current) == Feed(Yard("", [], ""), expression[..i])
    {
      var token := expression[i];
      assert expression[..i + 1][..i] == expression[..i];
      ghost var before := Yard(stack, output, current);
      if IsOperator(token) {
        if current != "" {
          output := output + [current];
          current := "";
        }
        if token == '(' {
          stack := stack + [token];
        } else if token == ')' {
          ghost var target := PopToParen(stack, output);
          while |stack| > 0 && stack[|stack| - 1] != '('
            invariant PopToParen(stack, output) == target
            decreases |stack|
          {
            output := output + [[stack[|stack| - 1]]];
            stack := stack[..|stack| - 1];
          }
          stack := Popped(stack);
        } else {
          ghost var target := PopTighter(stack, output, Precedence(token));
          while |stack| > 0 && Precedence(token) <= Precedence(stack[|stack| - 1])
            invariant PopTighter(stack, output, Precedence(token)) == target
            decreases |stack|
          {
            output := output + [[stack[|stack| - 1]]];
            stack := stack[..|stack| - 1];
          }
          stack := stack + [token];
        }
      } else if !IsSpace(token) {
        current := current + [token];
      }
      assert Yard(stack, output, current) == Step(before, token);
      i := i + 1;
    }
    assert expression[..i] == expression;
    if current != "" {
      output := output + [current];
    }
    ghost var target := Drained(stack, output);
    while |stack| > 0
      invariant Drained(stack, output) == target
      decreases |stack|
    {
      output := output + [[stack[|stack| - 1]]];
      stack := stack[..|stack| - 1];
    }
  }

  // --- Postfix to tree ---

  /** Whether a postfix token is an operator. */
  predicate IsOpToken(token: string) {
    |token| == 1 && IsOperator(token[0])
  }

  /** The stack after the tokens; `None` when an operator found too little on it. */
  function Rebuilt(tokens: seq<string>, stack: seq<Tree>): Option<seq<Tree>> {
    if tokens == [] then Some(stack)
    else
      var token, n := tokens[0], |stack|;
      if !IsOpToken(token) then Rebuilt(tokens[1..], stack + [Leaf(token)])
      else if token == "~" then
        if n < 1 then None else Rebuilt(tokens[1..], stack[..n - 1] + [Round(stack[n - 1])])
      else
        if n < 2 then None else Rebuilt(tokens[1..], stack[..n - 2] + [Op(token[0], stack[n - 2], stack[n - 1])])
  }

  /** `#postfix_to_sql` and `#postfix_to_mongodb`: the tree on top of the stack at the end. */
  method PostfixToTree(postfix: seq<string>) returns (tree: Option<Tree>, underflow: bool)
    ensures underflow <==> Rebuilt(postfix, []).None?
    ensures !underflow ==>
        tree == (var stack := Rebuilt(postfix, []).value; if stack == [] then None else Some(stack[|stack| - 1]))
  {
    var stack: seq<Tree> := [];
    var i := 0;
    underflow := false;
    tree := None;
    assert postfix[0..] == postfix;
    while i < |postfix|
      invariant 0 <= i <= |postfix| && Rebuilt(postfix[i..], stack) == Rebuilt(postfix, [])
    {
      var token, n := postfix[i], |stack|;
      assert postfix[i..][1..] == postfix[i + 1..];
      i := i + 1;
      if !IsOpToken(token) {
        stack := stack + [Leaf(token)];
      } else if token == "~" {
        if n < 1 { return None, true; }
        stack := stack[..n - 1] + [Round(stack[n - 1])];
      } else {
        if n < 2 { return None, true; }
        stack := stack[..n - 2] + [Op(token[0], stack[n - 2], stack[n - 1])];
      }
    }
    if stack != [] {
      tree := Some(stack[|stack| - 1]);
    }
  }

  // --- Reading what was written ---

  /** The postfix of an expression. Of two `~` in a row the first is written at once, before its operand. */
  function PostfixOf(e: Infix): seq<string> {
    match e
    case Name(name) => [name]
    case Paren(inner) => PostfixOf(inner)
    case Tilde(inner) => if inner.Tilde? then ["~"] + PostfixOf(inner) else PostfixOf(inner) + ["~"]
    case Binary(left, op, right) => PostfixOf(left) + PostfixOf(right) + [[op]]
  }

  /** Right after an expression was read: its operators still on the stack, */
  function Spine(e: Infix): string {
    match e
    case Name(_) => ""
    case Paren(_) => ""
    case Tilde(inner) => if inner.Tilde? then Spine(inner) else "~" + Spine(inner)
    case Binary(_, op, right) => [op] + Spine(right)
  }

  /** what was already written, */
  function Done(e: Infix): seq<string> {
    match e
    case Name(_) => []
    case Paren(inner) => PostfixOf(inner)
    case Tilde(inner) => if inner.Tilde? then ["~"] + Done(inner) else Done(inner)
    case Binary(left, _, right) => PostfixOf(left) + Done(right)
  }

  /** and the name not yet ended. */
  function Current(e: Infix): string {
    match e
    case Name(name) => name
    case Paren(_) => ""
    case Tilde(inner) => Current(inner)
    case Binary(_, _, right) => Current(right)
  }

  /** Operators as they come off the stack. */
  function Off(spine: string): seq<string> {
    if spine == "" then [] else [[spine[|spine| - 1]]] + Off(spine[..|spine| - 1])
  }

  lemma {:induction false} OffCons(c: char, spine: string)
    ensures Off([c] + spine) == Off(spine) + [[c]]
    decreases |spine|
  {
    if spine == "" {
      assert [c] + spine == [c];
      assert [c][..0] == "";
    } else {
      assert ([c] + spine)[..|spine|] == [c] + spine[..|spine| - 1];
      OffCons(c, spine[..|spine| - 1]);
    }
  }

  lemma {:induction false} PostfixIs(e: Infix)
    requires WellFormed(e)
    ensures PostfixOf(e) == Flushed(Done(e), Current(e)) + Off(Spine(e))
  {
    match e
    case Name(_) =>
    case Paren(_) =>
    case Tilde(inner) =>
      PostfixIs(inner);
      OffCons('~', Spine(inner));
      FlushedAfter(["~"], Done(inner), Current(inner));
      Associates(["~"], Flushed(Done(inner), Current(inner)), Off(Spine(inner)));
    case Binary(left, op, right) =>
      PostfixIs(right);
      OffCons(op, Spine(right));
      FlushedAfter(PostfixOf(left), Done(right), Current(right));
      Regroup(PostfixOf(left), Flushed(Done(right), Current(right)), Off(Spine(right)), [[op]]);
  }

  lemma FlushedAfter(a: seq<string>, b: seq<string>, current: string)
    ensures Flushed(a + b, current) == a + Flushed(b, current)
  {
  }

  lemma Regroup(a: seq<string>, b: seq<string>, c: seq<string>, d: seq<string>)
    ensures a + (b + c) + d == a + b + (c + d)
  {
  }

  lemma {:induction false} SpineIsTight(e: Infix)
    requires WellFormed(e)
    ensures forall c <- Spine(e) :: Precedence(c) >= Level(e) && c != '('
  {
    match e
    case Name(_) =>
    case Paren(_) =>
    case Tilde(inner) => SpineIsTight(inner);
    case Binary(_, _, right) => SpineIsTight(right);
  }

  lemma {:induction false} PopsSpine(stack: string, spine: string, output: seq<string>, least: nat)
    requires forall c <- spine :: Precedence(c) >= least
    requires stack == "" || Precedence(stack[|stack| - 1]) < least
    ensures PopTighter(stack + spine, output, least) == (stack, output + Off(spine))
    decreases |spine|
  {
    if spine == "" {
      assert stack + spine == stack && output + [] == output;
    } else {
      var init, last := spine[..|spine| - 1], spine[|spine| - 1];
      assert last in spine && forall c <- init :: c in spine;
      assert (stack + spine)[|stack + spine| - 1] == last;
      assert (stack + spine)[..|stack + spine| - 1] == stack + init;
      PopsSpine(stack, init, output + [[last]], least);
      assert output + [[last]] + Off(init) == output + Off(spine);
    }
  }

  lemma {:induction false} PopsToParen(stack: string, spine: string, output: seq<string>)
    requires forall c <- spine :: c != '('
    ensures PopToParen(stack + "(" + spine, output) == (stack + "(", output + Off(spine))
    decreases |spine|
  {
    if spine == "" {
      assert stack + "(" + spine == stack + "(" && output + [] == output;
    } else {
      var init, last := spine[..|spine| - 1], spine[|spine| - 1];
      assert last in spine && forall c <- init :: c in spine;
      assert (stack + "(" + spine)[|stack + "(" + spine| - 1] == last;
      assert (stack + "(" + spine)[..|stack + "(" + spine| - 1] == stack + "(" + init;
      PopsToParen(stack, init, output + [[last]]);
      assert output + [[last]] + Off(init) == output + Off(spine);
    }
  }

  lemma {:induction false} DrainsSpine(spine: string, output: seq<string>)
    ensures Drained(spine, output) == output + Off(spine)
    decreases |spine|
  {
    if spine != "" {
      var init, last := spine[..|spine| - 1], spine[|spine| - 1];
      DrainsSpine(init, output + [[last]]);
      assert output + [[last]] + Off(init) == output + Off(spine);
    }
  }

  lemma {:induction false} FeedConcat(y: Yard, a: string, b: string)
    ensures Feed(y, a + b) == Feed(Feed(y, a), b)
    decreases |b|
  {
    if b == "" {
      assert a + b == a;
    } else {
      assert (a + b)[..|a + b| - 1] == a + b[..|b| - 1];
      FeedConcat(y, a, b[..|b| - 1]);
    }
  }

  lemma FeedOne(y: Yard, c: char)
    ensures Feed(y, [c]) == Step(y, c)
  {
    assert [c][..0] == "";
    assert Feed(y, "") == y;
  }

  lemma {:induction false} ReadsName(y: Yard, name: string)
    requires forall c <- name :: !IsOperator(c) && !IsSpace(c)
    ensures Feed(y, name) == y.(current := y.current + name)
    decreases |name|
  {
    if name == "" {
      assert y.current + name == y.current;
    } else {
      var init, last := name[..|name| - 1], name[|name| - 1];
      assert last in name;
      ReadsName(y, init);
      assert y.current + init + [last] == y.current + name;
    }
  }

  /** What is below on the stack does not come off while the expression is read. */
  predicate Holds(stack: string, level: nat) {
    stack == "" || Precedence(stack[|stack| - 1]) < level
  }

  lemma AfterOperator(y: Yard, left: Infix, op: char)
    requires WellFormed(left) && op in {'+', '-', '*', '/'} && Level(left) >= Precedence(op)
        && Holds(y.stack, Precedence(op)) && y.current == ""
    ensures Operated(Yard(y.stack + Spine(left), y.output + Done(left), Current(left)), op)
        == Yard(y.stack + [op], y.output + PostfixOf(left), "")
  {
    SpineIsTight(left);
    PostfixIs(left);
    FlushedAfter(y.output, Done(left), Current(left));
    hide PopTighter, Off, Spine, Done, Current, PostfixOf, Flushed, WellFormed, Level, Precedence;
    var flushed, off := Flushed(Done(left), Current(left)), Off(Spine(left));
    PopsSpine(y.stack, Spine(left), y.output + flushed, Precedence(op));
    Associates(y.output, flushed, off);
  }

  lemma Associates<T>(a: seq<T>, b: seq<T>, c: seq<T>)
    ensures a + b + c == a + (b + c)
  {
  }

  lemma AfterParen(y: Yard, inner: Infix)
    requires WellFormed(inner)
    ensures Closed(Yard(y.stack + "(" + Spine(inner), y.output + Done(inner), Current(inner)))
        == Yard(y.stack, y.output + PostfixOf(inner), "")
  {
    SpineIsTight(inner);
    PostfixIs(inner);
    FlushedAfter(y.output, Done(inner), Current(inner));
    hide PopToParen, Off, Spine, Done, Current, PostfixOf, Flushed, WellFormed, Level, Precedence;
    var flushed, off := Flushed(Done(inner), Current(inner)), Off(Spine(inner));
    PopsToParen(y.stack, Spine(inner), y.output + flushed);
    Associates(y.output, flushed, off);
    assert (y.stack + "(")[..|y.stack|] == y.stack;
  }

  /** Reading an expression, whatever waits below it. */
  lemma {:induction false} Reads(y: Yard, e: Infix)
    requires WellFormed(e) && y.current == "" && Holds(y.stack, Level(e))
    ensures Feed(y, Text(e)) == Yard(y.stack + Spine(e), y.output + Done(e), Current(e))
    decreases e
  {
    match e {
      case Name(name) =>
        ReadsName(y, name);
        assert y.stack + "" == y.stack && y.output + [] == y.output && "" + name == name;
      case Paren(inner) =>
        Reads(Opened(y), inner);
        ReadsParen(y, inner);
      case Tilde(inner) =>
        if inner.Tilde? {
          Reads(Yard(y.stack, y.output + ["~"], ""), inner);
          ReadsTildes(y, inner);
        } else {
          assert Holds(y.stack + "~", Level(inner));
          Reads(Yard(y.stack + "~", y.output, ""), inner);
          ReadsTilde(y, inner);
        }
      case Binary(left, op, right) =>
        assert Holds(y.stack + [op], Level(right));
        Reads(y, left);
        Reads(Yard(y.stack + [op], y.output + PostfixOf(left), ""), right);
        ReadsBinary(y, left, op, right);
    }
  }

  lemma ReadsParen(y: Yard, inner: Infix)
    requires WellFormed(inner) && y.current == ""
    requires Feed(Opened(y), Text(inner)) == Yard(Opened(y).stack + Spine(inner), y.output + Done(inner),
        Current(inner))
    ensures Feed(y, "(" + Text(inner) + ")") == Yard(y.stack + "", y.output + PostfixOf(inner), "")
  {
    FeedConcat(y, "(" + Text(inner), ")");
    FeedConcat(y, "(", Text(inner));
    FeedOne(y, '(');
    FeedOne(Feed(Opened(y), Text(inner)), ')');
    AfterParen(y, inner);
    assert y.stack + "" == y.stack;
    hide Feed, Text, Done, Current, Spine, WellFormed, PostfixOf, Closed;
  }

  lemma ReadsTilde(y: Yard, inner: Infix)
    requires y.current == "" && Holds(y.stack, 3)
    requires Feed(Yard(y.stack + "~", y.output, ""), Text(inner))
        == Yard(y.stack + "~" + Spine(inner), y.output + Done(inner), Current(inner))
    ensures Feed(y, "~" + Text(inner)) == Yard(y.stack + ("~" + Spine(inner)), y.output + Done(inner), Current(inner))
  {
    FeedConcat(y, "~", Text(inner));
    FeedOne(y, '~');
    TildeWaits(y);
    Associates(y.stack, "~", Spine(inner));
    hide *;
  }

  /** The second `~` takes the first off the stack. */
  lemma ReadsTildes(y: Yard, inner: Infix)
    requires y.current == "" && Holds(y.stack, 3) && inner.Tilde?
    requires Feed(Yard(y.stack, y.output + ["~"], ""), Text(inner))
        == Yard(y.stack + Spine(inner), y.output + ["~"] + Done(inner), Current(inner))
    ensures Feed(y, "~" + Text(inner))
        == Yard(y.stack + Spine(inner), y.output + (["~"] + Done(inner)), Current(inner))
  {
    var once, written := Yard(y.stack + "~", y.output, ""), Yard(y.stack, y.output + ["~"], "");
    var rest := Text(inner.inner);
    FeedConcat(y, "~", Text(inner));
    FeedOne(y, '~');
    TildeWaits(y);
    FeedConcat(once, "~", rest);
    FeedConcat(written, "~", rest);
    FeedOne(once, '~');
    FeedOne(written, '~');
    TildeLeaves(y);
    Associates(y.output, ["~"], Done(inner));
    assert Text(inner) == "~" + rest;
    hide *;
  }

  lemma TildeLeaves(y: Yard)
    requires y.current == "" && Holds(y.stack, 3)
    ensures Step(Yard(y.stack + "~", y.output, ""), '~') == Step(Yard(y.stack, y.output + ["~"], ""), '~')
  {
    PopsTilde(y.stack, y.output);
    hide PopTighter;
  }

  lemma PopsTilde(stack: string, output: seq<string>)
    requires Holds(stack, 3)
    ensures PopTighter(stack + "~", output, 3) == (stack, output + ["~"]) == PopTighter(stack, output + ["~"], 3)
  {
    var waiting := stack + "~";
    assert waiting[..|waiting| - 1] == stack && waiting[|waiting| - 1] == '~';
    assert PopTighter(waiting, output, 3) == PopTighter(stack, output + ["~"], 3);
  }

  lemma TildeWaits(y: Yard)
    requires y.current == "" && Holds(y.stack, 3)
    ensures Step(y, '~') == Yard(y.stack + "~", y.output, "")
  {
  }

  lemma ReadsBinary(y: Yard, left: Infix, op: char, right: Infix)
    requires WellFormed(left) && op in {'+', '-', '*', '/'} && Level(left) >= Precedence(op)
        && Holds(y.stack, Precedence(op)) && y.current == ""
    requires Feed(y, Text(left)) == Yard(y.stack + Spine(left), y.output + Done(left), Current(left))
    requires Feed(Yard(y.stack + [op], y.output + PostfixOf(left), ""), Text(right))
          == Yard(y.stack + [op] + Spine(right), y.output + PostfixOf(left) + Done(right), Current(right))
    ensures Feed(y, Text(left) + [op] + Text(right))
        == Yard(y.stack + ([op] + Spine(right)), y.output + (PostfixOf(left) + Done(right)), Current(right))
  {
    FeedConcat(y, Text(left) + [op], Text(right));
    FeedConcat(y, Text(left), [op]);
    FeedOne(Feed(y, Text(left)), op);
    AfterOperator(y, left, op);
    StepOperates(Feed(y, Text(left)), op);
    Associates(y.stack, [op], Spine(right));
    Associates(y.output, PostfixOf(left), Done(right));
    hide *;
  }

  lemma StepOperates(y: Yard, op: char)
    requires op in {'+', '-', '*', '/'}
    ensures Step(y, op) == Operated(y, op)
  {
    hide Operated;
  }

  const START := Yard("", [], "")

  lemma Finishes(y: Yard, e: Infix, output: seq<string>)
    requires WellFormed(e) && y == Yard(Spine(e), output + Done(e), Current(e))
    ensures Drained(y.stack, Flushed(y.output, y.current)) == output + PostfixOf(e)
  {
    PostfixIs(e);
    FlushedAfter(output, Done(e), Current(e));
    DrainsSpine(Spine(e), Flushed(y.output, y.current));
    Associates(output, Flushed(Done(e), Current(e)), Off(Spine(e)));
    hide *;
  }

  /** The shunting-yard writes the postfix of every expression, however it is parenthesized. */
  lemma PostfixIsRight(e: Infix)
    requires WellFormed(e)
    ensures Postfix(Text(e)) == PostfixOf(e)
  {
    Reads(START, e);
    assert "" + Spine(e) == Spine(e);
    Finishes(Feed(START, Text(e)), e, []);
    assert [] + PostfixOf(e) == PostfixOf(e);
    hide Feed, Text, Spine, Done, Current, Drained, PostfixOf;
  }

  // --- What is rebuilt ---

  /** How many `~` are written before the first name. */
  function Lead(e: Infix): nat {
    match e
    case Name(_) => 0
    case Paren(inner) => Lead(inner)
    case Tilde(inner) => if inner.Tilde? then 1 + Lead(inner) else Lead(inner)
    case Binary(left, _, _) => Lead(left)
  }

  function Rounds(n: nat, t: Tree): Tree {
    if n == 0 then t else Rounds(n - 1, Round(t))
  }

  /** The tree that is rebuilt: a `~` written too early rounds the operand before it. */
  function Misread(e: Infix): Tree {
    match e
    case Name(name) => Leaf(name)
    case Paren(inner) => Misread(inner)
    case Tilde(inner) => if inner.Tilde? then Misread(inner) else Round(Misread(inner))
    case Binary(left, op, right) => Op(op, Rounds(Lead(right), Misread(left)), Misread(right))
  }

  /** The stack on which `n` early `~` have been applied. */
  function Early(n: nat, stack: seq<Tree>): Option<seq<Tree>> {
    if n == 0 then Some(stack)
    else if stack == [] then None
    else Some(stack[..|stack| - 1] + [Rounds(n, stack[|stack| - 1])])
  }

  function RebuiltAfter(rest: seq<string>, stack: Option<seq<Tree>>, tree: Tree): Option<seq<Tree>> {
    if stack.None? then None else Rebuilt(rest, stack.value + [tree])
  }

  lemma {:induction false} RebuildsOne(e: Infix, rest: seq<string>, stack: seq<Tree>)
    requires WellFormed(e)
    ensures Rebuilt(PostfixOf(e) + rest, stack) == RebuiltAfter(rest, Early(Lead(e), stack), Misread(e))
    decreases e
  {
    match e
    case Name(name) =>
      NamesAreNoOperators(name);
      assert ([name] + rest)[1..] == rest;
    case Paren(inner) =>
      RebuildsOne(inner, rest, stack);
    case Tilde(inner) =>
      if inner.Tilde? {
        RebuildsEarly(e, inner, rest, stack);
      } else {
        assert PostfixOf(inner) + ["~"] + rest == PostfixOf(inner) + (["~"] + rest);
        RebuildsOne(inner, ["~"] + rest, stack);
        if Early(Lead(inner), stack).Some? {
          RebuildsRound(Misread(inner), rest, Early(Lead(inner), stack).value);
        }
        hide Rebuilt;
      }
    case Binary(left, op, right) =>
      assert PostfixOf(left) + PostfixOf(right) + [[op]] + rest == PostfixOf(left)
          + (PostfixOf(right) + ([[op]] + rest));
      RebuildsOne(left, PostfixOf(right) + ([[op]] + rest), stack);
      if Early(Lead(left), stack).Some? {
        var below, l, r := Early(Lead(left), stack).value, Misread(left), Misread(right);
        RebuildsOne(right, [[op]] + rest, below + [l]);
        EarlyOnTop(Lead(right), below, l);
        RebuildsOp(op, Rounds(Lead(right), l), r, rest, below);
      }
      hide Rebuilt;
  }

  lemma RebuildsEarly(e: Infix, inner: Infix, rest: seq<string>, stack: seq<Tree>)
    requires WellFormed(e) && e == Tilde(inner) && inner.Tilde?
    ensures Rebuilt(PostfixOf(e) + rest, stack) == RebuiltAfter(rest, Early(Lead(e), stack), Misread(e))
    decreases e, 0
  {
    var n := |stack|;
    assert (PostfixOf(e) + rest)[0] == "~" && (PostfixOf(e) + rest)[1..] == PostfixOf(inner) + rest;
    if n > 0 {
      var rounded := stack[..n - 1] + [Round(stack[n - 1])];
      RebuildsOne(inner, rest, rounded);
      EarlyAgain(Lead(inner), stack, rounded);
    }
    hide Early, Lead, Misread, PostfixOf, WellFormed;
    assert Lead(e) == 1 + Lead(inner) && Misread(e) == Misread(inner) by { LeadOfTilde(inner); }
    NoneEarly(Lead(e));
  }

  lemma LeadOfTilde(inner: Infix)
    requires inner.Tilde?
    ensures Lead(Tilde(inner)) == 1 + Lead(inner) && Misread(Tilde(inner)) == Misread(inner)
  {
  }

  lemma NoneEarly(n: nat)
    ensures n > 0 ==> Early(n, []) == None
  {
  }

  lemma EarlyAgain(n: nat, stack: seq<Tree>, rounded: seq<Tree>)
    requires stack != [] && rounded == stack[..|stack| - 1] + [Round(stack[|stack| - 1])]
    ensures Early(n + 1, stack) == Early(n, rounded)
  {
    assert rounded[..|stack| - 1] == stack[..|stack| - 1];
  }

  lemma EarlyOnTop(n: nat, stack: seq<Tree>, t: Tree)
    ensures Early(n, stack + [t]) == Some(stack + [Rounds(n, t)])
  {
    assert (stack + [t])[..|stack|] == stack;
  }

  lemma NamesAreNoOperators(name: string)
    requires name != "" && forall c <- name :: !IsOperator(c) && !IsSpace(c)
    ensures !IsOpToken(name)
  {
    assert name[0] in name;
  }

  lemma RebuildsRound(t: Tree, rest: seq<string>, stack: seq<Tree>)
    ensures Rebuilt(["~"] + rest, stack + [t]) == Rebuilt(rest, stack + [Round(t)])
  {
    assert (["~"] + rest)[1..] == rest;
    assert (stack + [t])[..|stack|] == stack;
  }

  lemma RebuildsOp(op: char, l: Tree, r: Tree, rest: seq<string>, stack: seq<Tree>)
    requires op in {'+', '-', '*', '/'}
    ensures Rebuilt([[op]] + rest, stack + [l] + [r]) == Rebuilt(rest, stack + [Op(op, l, r)])
  {
    assert ([[op]] + rest)[1..] == rest;
    assert (stack + [l] + [r])[..|stack|] == stack;
  }

  /** Every expression is read back; what an early `~` does to it is known. */
  lemma ReadBack(e: Infix)
    requires WellFormed(e)
    ensures Rebuilt(Postfix(Text(e)), []) == if Lead(e) > 0 then None else Some([Misread(e)])
  {
    PostfixIsRight(e);
    RebuildsOne(e, [], []);
    assert PostfixOf(e) + [] == PostfixOf(e) && [] + [Misread(e)] == [Misread(e)];
    hide PostfixOf, Postfix;
  }

  /**
   * Printed and parsed again, every tree is rebuilt: left to right, `~` tightest, and no operator ever
   * finds the stack too short.
   */
  lemma TreeRoundTrip(t: Tree)
    requires GoodTree(t)
    ensures Rebuilt(Postfix(Text(Written(t))), []) == Some([t])
  {
    WrittenIsWellFormed(t);
    DoubledText(Written(t));
    ExpressionRoundTrip(Written(t));
  }

  /** So is the tree of any text with more parentheses than it needs, exactly when no two `~` stand together. */
  lemma ExpressionRoundTrip(e: Infix)
    requires WellFormed(e)
    ensures Rebuilt(Postfix(Text(e)), []) == Some([TreeOf(e)]) <==> !Doubles(Text(e))
  {
    ReadBack(e);
    DoubledText(e);
    if Lead(e) == 0 {
      MisreadExactly(e);
    } else {
      LeadIsDoubled(e);
    }
    hide Postfix, Text, Doubles, Lead, Misread, TreeOf;
  }

  /** And an operator finds the stack too short exactly when two `~` stand together before the first name. */
  lemma DoublePrefixUnderflows(e: Infix)
    requires WellFormed(e)
    ensures Rebuilt(Postfix(Text(e)), []) == None <==> DoublesFirst(Text(e))
  {
    ReadBack(e);
    LeadText(e);
    hide Postfix, Text, DoublesFirst, Lead, Misread;
  }

  predicate TwoAt(text: string, i: nat) {
    i + 1 < |text| && text[i] == '~' && text[i + 1] == '~'
  }

  /** Two `~` stand together, */
  predicate Doubles(text: string) {
    exists i: nat :: i < |text| && TwoAt(text, i)
  }

  /** and no name before them. */
  predicate DoublesFirst(text: string) {
    exists i: nat :: i < |text| && TwoAt(text, i) && Operators(text, i)
  }

  predicate Operators(text: string, n: nat)
    requires n <= |text|
  {
    forall j :: 0 <= j < n ==> IsOperator(text[j])
  }

  lemma {:induction false} LeadIsDoubled(e: Infix)
    requires Lead(e) > 0
    ensures Doubled(e)
    decreases e
  {
    match e
    case Name(_) =>
    case Paren(inner) => LeadIsDoubled(inner);
    case Tilde(inner) => if !inner.Tilde? { LeadIsDoubled(inner); }
    case Binary(left, _, _) => LeadIsDoubled(left);
  }

  function CountRounds(t: Tree): nat {
    match t
    case Leaf(_) => 0
    case Round(tree) => 1 + CountRounds(tree)
    case Op(_, left, right) => CountRounds(left) + CountRounds(right)
  }

  lemma {:induction false} RoundsCount(n: nat, t: Tree)
    ensures CountRounds(Rounds(n, t)) == n + CountRounds(t)
    decreases n
  {
    if n > 0 { RoundsCount(n - 1, Round(t)); }
  }

  /** Every `~` rounds something, and those written before the first name round nothing of the expression. */
  lemma {:induction false} RoundsKept(e: Infix)
    ensures CountRounds(Misread(e)) + Lead(e) == CountRounds(TreeOf(e))
    decreases e
  {
    match e
    case Name(_) =>
    case Paren(inner) => RoundsKept(inner);
    case Tilde(inner) => RoundsKept(inner);
    case Binary(left, _, right) =>
      RoundsKept(left);
      RoundsKept(right);
      RoundsCount(Lead(right), Misread(left));
  }

  lemma {:induction false} MisreadExactly(e: Infix)
    requires Lead(e) == 0
    ensures Misread(e) == TreeOf(e) <==> !Doubled(e)
    decreases e
  {
    match e
    case Name(_) =>
    case Paren(inner) => MisreadExactly(inner);
    case Tilde(inner) => MisreadExactly(inner);
    case Binary(left, _, right) =>
      MisreadExactly(left);
      if Lead(right) == 0 {
        MisreadExactly(right);
      } else {
        LeadIsDoubled(right);
        RoundsKept(right);
      }
  }

  /** Two texts put together. */
  lemma DoublesConcat(a: string, b: string)
    ensures Doubles(a + b) <==>
        Doubles(a) || Doubles(b) || (a != "" && b != "" && a[|a| - 1] == '~' && b[0] == '~')
  {
    var ab := a + b;
    if i: nat :| i < |ab| && TwoAt(ab, i) {
      if i + 1 < |a| { assert TwoAt(a, i); }
      if i >= |a| { assert TwoAt(b, i - |a|); }
    }
    if i: nat :| i < |a| && TwoAt(a, i) {
      assert TwoAt(ab, i);
    }
    if i: nat :| i < |b| && TwoAt(b, i) {
      assert TwoAt(ab, |a| + i);
    }
    if a != "" && b != "" && a[|a| - 1] == '~' && b[0] == '~' {
      assert TwoAt(ab, |a| - 1);
    }
  }

  /** How an expression begins and ends. */
  lemma {:induction false} Ends(e: Infix)
    requires WellFormed(e)
    ensures var text := Text(e);
            text != "" && text[|text| - 1] != '~' && (Level(e) >= 3 ==> (text[0] == '~' <==> e.Tilde?))
    decreases e
  {
    match e
    case Name(name) => assert name[0] in name && name[|name| - 1] in name;
    case Paren(inner) =>
    case Tilde(inner) => Ends(inner);
    case Binary(left, _, right) =>
      Ends(right);
      Ends(left);
  }

  lemma {:induction false} DoubledText(e: Infix)
    requires WellFormed(e)
    ensures Doubles(Text(e)) <==> Doubled(e)
    decreases e
  {
    match e
    case Name(name) =>
      assert forall i :: 0 <= i < |name| ==> name[i] in name;
    case Paren(inner) =>
      DoubledText(inner);
      DoublesConcat("(" + Text(inner), ")");
      DoublesConcat("(", Text(inner));
      Ends(inner);
    case Tilde(inner) =>
      DoubledText(inner);
      DoublesConcat("~", Text(inner));
      Ends(inner);
    case Binary(left, op, right) =>
      DoubledText(left);
      DoubledText(right);
      DoublesConcat(Text(left) + [op], Text(right));
      DoublesConcat(Text(left), [op]);
      Ends(left);
  }

  predicate HasName(text: string) {
    exists i :: 0 <= i < |text| && !IsOperator(text[i])
  }

  /** What comes after a name does not stand before it. */
  lemma DoublesFirstConcat(a: string, b: string)
    requires HasName(a)
    ensures DoublesFirst(a + b) <==> DoublesFirst(a)
  {
    var ab := a + b;
    var n :| 0 <= n < |a| && !IsOperator(a[n]);
    assert ab[n] == a[n];
    forall i: nat | i <= |a|
      ensures Operators(ab, i) <==> Operators(a, i)
    {
      assert forall j :: 0 <= j < i ==> ab[j] == a[j];
    }
    if i: nat :| i < |a| && TwoAt(a, i) && Operators(a, i) {
      assert TwoAt(ab, i) && Operators(ab, i);
    }
    if i: nat :| i < |ab| && TwoAt(ab, i) && Operators(ab, i) {
      assert i <= n && IsOperator(ab[i]) && IsOperator(ab[i + 1]);
      assert i + 1 < n || i + 1 < |a|;
      assert TwoAt(a, i) && Operators(a, i);
    }
  }

  lemma DoublesFirstCons(c: char, text: string)
    requires IsOperator(c) && text != ""
    ensures DoublesFirst([c] + text) <==> DoublesFirst(text) || (c == '~' && text[0] == '~')
  {
    var all := [c] + text;
    forall i: nat | i <= |text|
      ensures Operators(all, i + 1) <==> Operators(text, i)
    {
      assert forall j :: 0 <= j < i ==> text[j] == all[j + 1];
      assert forall j :: 0 < j < i + 1 ==> all[j] == text[j - 1];
    }
    if i: nat :| i < |all| && TwoAt(all, i) && Operators(all, i) {
      if i > 0 { assert TwoAt(text, i - 1) && Operators(text, i - 1); }
    }
    if i: nat :| i < |text| && TwoAt(text, i) && Operators(text, i) {
      assert TwoAt(all, i + 1) && Operators(all, i + 1);
    }
    if c == '~' && text[0] == '~' {
      assert TwoAt(all, 0) && Operators(all, 0);
    }
  }

  lemma HasNameConcat(a: string, b: string)
    ensures HasName(a) || HasName(b) ==> HasName(a + b)
  {
    if i :| 0 <= i < |a| && !IsOperator(a[i]) { assert (a + b)[i] == a[i]; }
    if i :| 0 <= i < |b| && !IsOperator(b[i]) { assert (a + b)[|a| + i] == b[i]; }
  }

  lemma {:induction false} NamesSomething(e: Infix)
    requires WellFormed(e)
    ensures HasName(Text(e))
    decreases e
  {
    match e
    case Name(name) => assert name[0] in name;
    case Paren(inner) =>
      NamesSomething(inner);
      HasNameConcat("(", Text(inner));
      HasNameConcat("(" + Text(inner), ")");
    case Tilde(inner) =>
      NamesSomething(inner);
      HasNameConcat("~", Text(inner));
    case Binary(left, op, right) =>
      NamesSomething(left);
      HasNameConcat(Text(left), [op]);
      HasNameConcat(Text(left) + [op], Text(right));
  }

  lemma {:induction false} LeadText(e: Infix)
    requires WellFormed(e)
    ensures DoublesFirst(Text(e)) <==> Lead(e) > 0
    decreases e
  {
    match e {
      case Name(name) =>
        assert forall i :: 0 <= i < |name| ==> name[i] in name;
      case Paren(inner) =>
        LeadText(inner);
        NamesSomething(inner);
        Ends(inner);
        HasNameConcat("(", Text(inner));
        DoublesFirstConcat("(" + Text(inner), ")");
        DoublesFirstCons('(', Text(inner));
      case Tilde(inner) =>
        LeadText(inner);
        Ends(inner);
        DoublesFirstCons('~', Text(inner));
      case Binary(left, op, right) =>
        LeadText(left);
        NamesSomething(left);
        HasNameConcat(Text(left), [op]);
        DoublesFirstConcat(Text(left) + [op], Text(right));
        DoublesFirstConcat(Text(left), [op]);
    }
  }

  // --- The grammar ---

  /** `term (('+' | '-') term)*`, to the left. */
  datatype Expression = OneTerm(term: Term) | Sum(before: Expression, minus: bool, term: Term)

  /** `unary (('*' | '/') unary)*`, to the left. */
  datatype Term = OneFactor(factor: Unary) | Product(before: Term, divided: bool, factor: Unary)

  /** `'~' unary | name | '(' expression ')'` */
  datatype Unary = Rounded(unary: Unary) | Operand(name: string) | Group(inner: Expression)

  predicate IsExpression(e: Expression) {
    match e
    case OneTerm(t) => IsTerm(t)
    case Sum(before, _, t) => IsExpression(before) && IsTerm(t)
  }

  predicate IsTerm(t: Term) {
    match t
    case OneFactor(u) => IsUnary(u)
    case Product(before, _, u) => IsTerm(before) && IsUnary(u)
  }

  predicate IsUnary(u: Unary) {
    match u
    case Rounded(inner) => IsUnary(inner)
    case Operand(name) => name != "" && forall c <- name :: c !in "+-*/()~" && !IsSpace(c)
    case Group(inner) => IsExpression(inner)
  }

  function ExpressionText(e: Expression): string {
    match e
    case OneTerm(t) => TermText(t)
    case Sum(before, minus, t) => ExpressionText(before) + (if minus then "-" else "+") + TermText(t)
  }

  function TermText(t: Term): string {
    match t
    case OneFactor(u) => UnaryText(u)
    case Product(before, divided, u) => TermText(before) + (if divided then "/" else "*") + UnaryText(u)
  }

  function UnaryText(u: Unary): string {
    match u
    case Rounded(inner) => "~" + UnaryText(inner)
    case Operand(name) => name
    case Group(inner) => "(" + ExpressionText(inner) + ")"
  }

  /** The tree the grammar gives a text. */
  function ExpressionTree(e: Expression): Tree {
    match e
    case OneTerm(t) => TermTree(t)
    case Sum(before, minus, t) => Op(if minus then '-' else '+', ExpressionTree(before), TermTree(t))
  }

  function TermTree(t: Term): Tree {
    match t
    case OneFactor(u) => UnaryTree(u)
    case Product(before, divided, u) => Op(if divided then '/' else '*', TermTree(before), UnaryTree(u))
  }

  function UnaryTree(u: Unary): Tree {
    match u
    case Rounded(inner) => Round(UnaryTree(inner))
    case Operand(name) => Leaf(name)
    case Group(inner) => ExpressionTree(inner)
  }

  function ExpressionInfix(e: Expression): Infix {
    match e
    case OneTerm(t) => TermInfix(t)
    case Sum(before, minus, t) => Binary(ExpressionInfix(before), if minus then '-' else '+', TermInfix(t))
  }

  function TermInfix(t: Term): Infix {
    match t
    case OneFactor(u) => UnaryInfix(u)
    case Product(before, divided, u) => Binary(TermInfix(before), if divided then '/' else '*', UnaryInfix(u))
  }

  function UnaryInfix(u: Unary): Infix {
    match u
    case Rounded(inner) => Tilde(UnaryInfix(inner))
    case Operand(name) => Name(name)
    case Group(inner) => Paren(ExpressionInfix(inner))
  }

  lemma {:induction false} ExpressionIsInfix(e: Expression)
    requires IsExpression(e)
    ensures var i := ExpressionInfix(e);
            WellFormed(i) && Level(i) >= 1 && Text(i) == ExpressionText(e) && TreeOf(i) == ExpressionTree(e)
    decreases e
  {
    match e
    case OneTerm(t) => TermIsInfix(t);
    case Sum(before, _, t) =>
      ExpressionIsInfix(before);
      TermIsInfix(t);
  }

  lemma {:induction false} TermIsInfix(t: Term)
    requires IsTerm(t)
    ensures var i := TermInfix(t);
            WellFormed(i) && Level(i) >= 2 && Text(i) == TermText(t) && TreeOf(i) == TermTree(t)
    decreases t
  {
    match t
    case OneFactor(u) => UnaryIsInfix(u);
    case Product(before, _, u) =>
      TermIsInfix(before);
      UnaryIsInfix(u);
  }

  lemma {:induction false} UnaryIsInfix(u: Unary)
    requires IsUnary(u)
    ensures var i := UnaryInfix(u);
            WellFormed(i) && Level(i) >= 3 && Text(i) == UnaryText(u) && TreeOf(i) == UnaryTree(u)
    decreases u
  {
    match u
    case Rounded(inner) => UnaryIsInfix(inner);
    case Operand(name) =>
      forall c | c in name
        ensures !IsOperator(c)
      {
        assert c !in "+-*/()~";
        assert "+-*/()~"[0] == '+' && "+-*/()~"[1] == '-' && "+-*/()~"[2] == '*' && "+-*/()~"[3] == '/';
        assert "+-*/()~"[4] == '(' && "+-*/()~"[5] == ')' && "+-*/()~"[6] == '~';
      }
    case Group(inner) => ExpressionIsInfix(inner);
  }

  /**
   * Every text of the grammar is read as the grammar has it, products before sums and both to the left, exactly
   * when no two `~` stand together.
   */
  lemma GrammarIsRead(e: Expression)
    requires IsExpression(e)
    ensures Rebuilt(Postfix(ExpressionText(e)), []) == Some([ExpressionTree(e)]) <==> !Doubles(ExpressionText(e))
  {
    ExpressionIsInfix(e);
    ExpressionRoundTrip(ExpressionInfix(e));
    hide *;
  }

  function Stripped(text: string): string {
    if text == "" then ""
    else
      var init, last := Stripped(text[..|text| - 1]), text[|text| - 1];
      if IsSpace(last) then init else init + [last]
  }

  lemma {:induction false} SpacesFeedNothing(text: string)
    ensures Feed(START, text) == Feed(START, Stripped(text))
    decreases |text|
  {
    if text != "" {
      var init, last := text[..|text| - 1], text[|text| - 1];
      SpacesFeedNothing(init);
      if IsSpace(last) {
        SpaceSteps(Feed(START, init), last);
      } else {
        FeedSnoc(Stripped(init), last);
      }
      hide Step;
    }
  }

  lemma SpaceSteps(y: Yard, c: char)
    requires IsSpace(c)
    ensures Step(y, c) == y
  {
  }

  lemma FeedSnoc(text: string, c: char)
    ensures Feed(START, text + [c]) == Step(Feed(START, text), c)
  {
    assert (text + [c])[..|text|] == text;
    hide Step;
  }

  /** White space is ignored wherever it stands. */
  lemma SpacesAreIgnored(text: string)
    ensures Postfix(text) == Postfix(Stripped(text))
  {
    SpacesFeedNothing(text);
    hide Feed, Stripped, Drained;
  }
}
