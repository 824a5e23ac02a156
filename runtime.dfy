/**
 * The bytecode interpreter (src/runtime/mod.rs): a Runtime holding a global
 * stack, a local (locals, args) stack and a stack memory, and run_byte,
 * which walks the scopes of a ByteCode in order and applies each
 * instruction of a Global scope to the global stack by index-addressed
 * list surgery.
 *
 * A Rust panic (an unwrap on a missing element, Vec::remove out of range,
 * todo!) ends the run: the model reports it as Panicked, together with the
 * stack as it was when the faulting instruction started.
 */
module Interpreter {
  import opened Wrappers
  import opened Bytecode

  /** The runtime's stack shapes: a global value list, or a (locals, args) pair. */
  datatype Stack =
    | Global(values: seq<Value>)
    | Local(locals: seq<Value>, args: seq<Value>)

  datatype Fault =
    | OutOfRange(index: nat, length: nat)  // unwrap on Vec::get, or Vec::remove
    | NotImplemented(node: ByteNode)       // the todo!() of Add, Sub, Mul and Div

  /** Where a run stands: still going with a stack, or stopped by a panic. */
  datatype Exec =
    | Running(stack: Stack)
    | Panicked(fault: Fault, stack: Stack)

  // ---------------------------------------------------------------------------
  // Vec::insert and Vec::remove

  /** Vec::insert(k, v): v lands at index k and the elements from k on move up by one. */
  function Insert(s: seq<Value>, k: nat, v: Value): (r: seq<Value>)
    requires k <= |s|
    ensures |r| == |s| + 1 && r[k] == v
    ensures forall j :: 0 <= j < k ==> r[j] == s[j]
    ensures forall j :: k < j < |r| ==> r[j] == s[j - 1]
  {
    s[..k] + [v] + s[k..]
  }

  /** Vec::remove(k): the element at k leaves and the later ones move down by one. */
  function Remove(s: seq<Value>, k: nat): (r: seq<Value>)
    requires k < |s|
    ensures |r| == |s| - 1
    ensures forall j :: 0 <= j < k ==> r[j] == s[j]
    ensures forall j :: k <= j < |r| ==> r[j] == s[j + 1]
  {
    s[..k] + s[k + 1..]
  }

  // ---------------------------------------------------------------------------
  // What run_byte does, as functions

  /** One instruction of a Global scope, applied to the global stack. */
  function Step(st: Stack, node: ByteNode): Exec
  {
    match node
    case Push(v) =>
      (match st
       case Global(s) => Running(Stack.Global(Insert(s, |s|, v)))
       case Local(_, _) => Running(st))
    case Pull(_, i) =>
      (match st
       case Global(s) =>
         if i < |s| then Running(Stack.Global(Insert(s, |s|, s[i])))
         else Panicked(OutOfRange(i, |s|), st)
       case Local(_, _) => Running(st))
    case Pop(i) =>
      (match st
       case Global(s) =>
         if i < |s| then Running(Stack.Global(Remove(s, i)))
         else Panicked(OutOfRange(i, |s|), st)
       case Local(_, _) => Running(st))
    case Mov(i) =>
      (match st
       case Global(s) =>
         if i < |s| then
           var t := Remove(s, i);
           Running(Stack.Global(Insert(t, |t|, s[i])))
         else Panicked(OutOfRange(i, |s|), st)
       case Local(_, _) => Running(st))
    case _ => Panicked(NotImplemented(node), st)
  }

  /** The instructions of one scope, in list order, stopping at the first panic. */
  function RunNodes(st: Stack, code: seq<ByteNode>): Exec
  {
    if code == [] then Running(st)
    else
      match RunNodes(st, code[..|code| - 1])
      case Panicked(f, s) => Panicked(f, s)
      case Running(s) => Step(s, code[|code| - 1])
  }

  /** A Global scope runs its code; a Function scope does nothing. */
  function RunScope(st: Stack, scope: Scope): Exec
  {
    match scope
    case Global(code) => RunNodes(st, code)
    case Function(_) => Running(st)
  }

  /** The scopes of a ByteCode, in list order, stopping at the first panic. */
  function RunScopes(st: Stack, scopes: seq<Scope>): Exec
  {
    if scopes == [] then Running(st)
    else
      match RunScopes(st, scopes[..|scopes| - 1])
      case Panicked(f, s) => Panicked(f, s)
      case Running(s) => RunScope(s, scopes[|scopes| - 1])
  }

  // ---------------------------------------------------------------------------
  // The interpreter

  class Runtime {
    var globalStack: Stack
    var localStack: Stack
    var stackMemory: seq<Stack>

    /** The global stack is always a Stack::Global: Runtime::new makes it one and no instruction changes its variant. */
    predicate Valid()
      reads this
    {
      globalStack.Global?
    }

    /** Runtime::new: an empty global stack, an empty (locals, args) pair, no saved stacks. */
    constructor ()
      ensures globalStack == Stack.Global([])
      ensures localStack == Stack.Local([], [])
      ensures stackMemory == []
      ensures Valid()
    {
      globalStack := Stack.Global([]);
      localStack := Stack.Local([], []);
      stackMemory := [];
    }

    /** One instruction of a Global scope: the body of run_byte's inner match. */
    method Execute(node: ByteNode) returns (fault: Option<Fault>)
      requires Valid()
      modifies this
      ensures Valid()
      ensures Step(old(globalStack), node)
              == if fault.Some? then Panicked(fault.value, globalStack) else Running(globalStack)
      ensures localStack == old(localStack) && stackMemory == old(stackMemory)
    {
      fault := None;
      match node {
        case Push(value) =>
          match globalStack {
            case Global(stack) =>
              globalStack := Stack.Global(Insert(stack, |stack|, value));
            case Local(_, _) =>
          }
        case Pull(_, index) =>
          match globalStack {
            case Global(stack) =>
              if index < |stack| {
                var value := stack[index];
                globalStack := Stack.Global(Insert(stack, |stack|, value));
              } else {
                fault := Some(OutOfRange(index, |stack|));
              }
            case Local(_, _) =>
          }
        case Pop(index) =>
          match globalStack {
            case Global(stack) =>
              if index < |stack| {
                globalStack := Stack.Global(Remove(stack, index));
              } else {
                fault := Some(OutOfRange(index, |stack|));
              }
            case Local(_, _) =>
          }
        case Mov(index) =>
          match globalStack {
            case Global(stack) =>
              if index < |stack| {
                var value := stack[index];
                var rest := Remove(stack, index);
                globalStack := Stack.Global(Insert(rest, |rest|, value));
              } else {
                fault := Some(OutOfRange(index, |stack|));
              }
            case Local(_, _) =>
          }
        case Add => fault := Some(NotImplemented(node));
        case Sub => fault := Some(NotImplemented(node));
        case Mul => fault := Some(NotImplemented(node));
        case Div => fault := Some(NotImplemented(node));
      }
    }

    /**
     * run_byte. The source returns nothing and a panic aborts; here the run's
     * outcome is returned, and after a panic the global stack is the one the
     * faulting instruction found.
     */
    method RunByte(input: ByteCode) returns (result: Exec)
      requires Valid()
      modifies this
      ensures Valid()
      ensures result == RunScopes(old(globalStack), input.code)
      ensures globalStack == result.stack
      ensures localStack == old(localStack) && stackMemory == old(stackMemory)
    {
      var i := 0;
      while i < |input.code|
        invariant 0 <= i <= |input.code|
        invariant RunScopes(old(globalStack), input.code[..i]) == Running(globalStack)
        invariant Valid()
        invariant localStack == old(localStack) && stackMemory == old(stackMemory)
      {
        assert input.code[..i + 1][..i] == input.code[..i];
        match input.code[i] {
          case Global(code) =>
            ghost var before := globalStack;
            var j := 0;
            while j < |code|
              invariant 0 <= j <= |code|
              invariant RunNodes(before, code[..j]) == Running(globalStack)
              invariant Valid()
              invariant localStack == old(localStack) && stackMemory == old(stackMemory)
            {
              assert code[..j + 1][..j] == code[..j];
              var fault := Execute(code[j]);
              if fault.Some? {
                result := Panicked(fault.value, globalStack);
                PanicInScope(old(globalStack), input.code, i, j + 1);
                return;
              }
              j := j + 1;
            }
            assert code[..j] == code;
          case Function(_) =>
        }
        i := i + 1;
      }
      assert input.code[..i] == input.code;
      result := Running(globalStack);
    }
  }

  // ---------------------------------------------------------------------------
  // A panic ends the run

  lemma {:induction false} NodesPanicPersists(st: Stack, code: seq<ByteNode>, k: nat)
    requires k <= |code| && RunNodes(st, code[..k]).Panicked?
    ensures RunNodes(st, code) == RunNodes(st, code[..k])
    decreases |code|
  {
    if k < |code| {
      var prefix := code[..|code| - 1];
      assert prefix[..k] == code[..k];
      NodesPanicPersists(st, prefix, k);
    } else {
      assert code[..k] == code;
    }
  }

  lemma {:induction false} ScopesPanicPersists(st: Stack, scopes: seq<Scope>, k: nat)
    requires k <= |scopes| && RunScopes(st, scopes[..k]).Panicked?
    ensures RunScopes(st, scopes) == RunScopes(st, scopes[..k])
    decreases |scopes|
  {
    if k < |scopes| {
      var prefix := scopes[..|scopes| - 1];
      assert prefix[..k] == scopes[..k];
      ScopesPanicPersists(st, prefix, k);
    } else {
      assert scopes[..k] == scopes;
    }
  }

  /** A panic j instructions into Global scope i is the outcome of the whole run. */
  lemma PanicInScope(st: Stack, scopes: seq<Scope>, i: nat, j: nat)
    requires i < |scopes| && scopes[i].Global? && j <= |scopes[i].code|
    requires RunScopes(st, scopes[..i]).Running?
    requires RunNodes(RunScopes(st, scopes[..i]).stack, scopes[i].code[..j]).Panicked?
    ensures RunScopes(st, scopes) == RunNodes(RunScopes(st, scopes[..i]).stack, scopes[i].code[..j])
  {
    var s0 := RunScopes(st, scopes[..i]).stack;
    NodesPanicPersists(s0, scopes[i].code, j);
    assert scopes[..i + 1][..i] == scopes[..i];
    ScopesPanicPersists(st, scopes, i + 1);
  }

  // ---------------------------------------------------------------------------
  // One instruction at a time

  /** Push appends its value on top of the global stack. */
  lemma PushAppends(s: seq<Value>, v: Value)
    ensures Step(Stack.Global(s), Push(v)) == Running(Stack.Global(s + [v]))
  {
    assert Insert(s, |s|, v) == s + [v];
  }

  /** Pull copies the value at an index to the top; the scope it names plays no part. */
  lemma PullCopies(s: seq<Value>, scope: ValueScope, i: nat)
    requires i < |s|
    ensures Step(Stack.Global(s), Pull(scope, i)) == Running(Stack.Global(s + [s[i]]))
  {
    assert Insert(s, |s|, s[i]) == s + [s[i]];
  }

  /** Pop takes out the value at an index, keeping the others in order. */
  lemma PopRemoves(s: seq<Value>, i: nat)
    requires i < |s|
    ensures Step(Stack.Global(s), Pop(i)).Running?
    ensures var t := Step(Stack.Global(s), Pop(i)).stack;
      t == Stack.Global(s[..i] + s[i + 1..]) && multiset(t.values) + multiset{s[i]} == multiset(s)
  {
    assert s == s[..i] + [s[i]] + s[i + 1..];
  }

  /** Mov moves the value at an index to the top: a rotation, the identity on the top index. */
  lemma MovRotates(s: seq<Value>, i: nat)
    requires i < |s|
    ensures Step(Stack.Global(s), Mov(i)) == Running(Stack.Global(s[..i] + s[i + 1..] + [s[i]]))
    ensures multiset(s[..i] + s[i + 1..] + [s[i]]) == multiset(s)
    ensures i == |s| - 1 ==> Step(Stack.Global(s), Mov(i)) == Running(Stack.Global(s))
  {
    var t := Remove(s, i);
    assert Insert(t, |t|, s[i]) == s[..i] + s[i + 1..] + [s[i]];
    assert s == s[..i] + [s[i]] + s[i + 1..];
    if i == |s| - 1 {
      assert s[..i] + s[i + 1..] + [s[i]] == s;
    }
  }

  /** Pull(i) followed by Pop of the new top gives back the stack it started from. */
  lemma PopUndoesPull(s: seq<Value>, scope: ValueScope, i: nat)
    requires i < |s|
    ensures RunNodes(Stack.Global(s), [Pull(scope, i), Pop(|s|)]) == Running(Stack.Global(s))
  {
    var code := [Pull(scope, i), Pop(|s|)];
    assert code[..1] == [Pull(scope, i)];
    assert code[..1][..0] == [];
    PullCopies(s, scope, i);
    assert RunNodes(Stack.Global(s), code[..1]) == Running(Stack.Global(s + [s[i]]));
    var t := s + [s[i]];
    assert Remove(t, |s|) == s;
  }

  /** Push followed by Pop of the new top gives back the stack it started from. */
  lemma PopUndoesPush(s: seq<Value>, v: Value)
    ensures RunNodes(Stack.Global(s), [Push(v), Pop(|s|)]) == Running(Stack.Global(s))
  {
    var code := [Push(v), Pop(|s|)];
    assert code[..1] == [Push(v)];
    assert code[..1][..0] == [];
    PushAppends(s, v);
    assert RunNodes(Stack.Global(s), code[..1]) == Running(Stack.Global(s + [v]));
    var t := s + [v];
    assert Remove(t, |s|) == s;
  }

  function IsArithmetic(node: ByteNode): bool
  {
    node.Add? || node.Sub? || node.Mul? || node.Div?
  }

  /** The index an index-addressed instruction names, if it names one. */
  function IndexOf(node: ByteNode): Option<nat>
  {
    match node
    case Pull(_, i) => Some(i)
    case Pop(i) => Some(i)
    case Mov(i) => Some(i)
    case _ => None
  }

  /**
   * An instruction panics exactly when it is arithmetic, or when it addresses
   * the global stack at an index past its end; a panic leaves the stack as it was.
   */
  lemma PanicsExactly(st: Stack, node: ByteNode)
    ensures Step(st, node).Panicked?
            <==> IsArithmetic(node)
                 || (st.Global? && IndexOf(node).Some? && IndexOf(node).value >= |st.values|)
    ensures Step(st, node).Panicked? ==> Step(st, node).stack == st
    ensures Step(st, node).Panicked? && !IsArithmetic(node)
            ==> Step(st, node).fault == OutOfRange(IndexOf(node).value, |st.values|)
  {
  }

  /** On a Local stack every instruction but the arithmetic ones does nothing. */
  lemma LocalStackUntouched(locals: seq<Value>, args: seq<Value>, node: ByteNode)
    requires !IsArithmetic(node)
    ensures Step(Stack.Local(locals, args), node) == Running(Stack.Local(locals, args))
  {
  }

  // ---------------------------------------------------------------------------
  // Whole runs

  /** A run picks up from where an earlier one stopped, unless that one panicked. */
  function Continue(e: Exec, code: seq<ByteNode>): Exec
  {
    match e
    case Panicked(_, _) => e
    case Running(s) => RunNodes(s, code)
  }

  /** Running a + b is running a, then b from where a left off. */
  lemma {:induction false} RunNodesAppend(st: Stack, a: seq<ByteNode>, b: seq<ByteNode>)
    ensures RunNodes(st, a + b) == Continue(RunNodes(st, a), b)
    decreases |b|
  {
    if b == [] {
      assert a + b == a;
    } else {
      var b' := b[..|b| - 1];
      assert (a + b)[..|a + b| - 1] == a + b';
      assert (a + b)[|a + b| - 1] == b[|b| - 1];
      RunNodesAppend(st, a, b');
    }
  }

  /** The code of the Global scopes, in order; Function scopes contribute nothing. */
  function GlobalCode(scopes: seq<Scope>): seq<ByteNode>
  {
    if scopes == [] then []
    else
      GlobalCode(scopes[..|scopes| - 1])
      + match scopes[|scopes| - 1]
        case Global(code) => code
        case Function(_) => []
  }

  /**
   * run_byte is one pass over the instructions of all Global scopes, in list
   * order: scopes are run in order and Function scopes are skipped.
   */
  lemma {:induction false} RunScopesRunsGlobalCode(st: Stack, scopes: seq<Scope>)
    ensures RunScopes(st, scopes) == RunNodes(st, GlobalCode(scopes))
    decreases |scopes|
  {
    if scopes != [] {
      var prefix := scopes[..|scopes| - 1];
      var last := scopes[|scopes| - 1];
      RunScopesRunsGlobalCode(st, prefix);
      match last
      case Global(code) =>
        RunNodesAppend(st, GlobalCode(prefix), code);
      case Function(_) =>
        assert GlobalCode(scopes) == GlobalCode(prefix);
    }
  }

  /** The net change each instruction makes to the height of the global stack. */
  function Growth(code: seq<ByteNode>): int
  {
    if code == [] then 0
    else
      Growth(code[..|code| - 1])
      + match code[|code| - 1]
        case Push(_) => 1
        case Pull(_, _) => 1
        case Pop(_) => -1
        case _ => 0
  }

  /**
   * A run from a global stack keeps a global stack, and when it finishes its
   * height is the starting height plus one per Push or Pull, minus one per Pop.
   */
  lemma {:induction false} HeightAccounting(s: seq<Value>, code: seq<ByteNode>)
    ensures RunNodes(Stack.Global(s), code).stack.Global?
    ensures RunNodes(Stack.Global(s), code).Running?
            ==> |RunNodes(Stack.Global(s), code).stack.values| == |s| + Growth(code)
    decreases |code|
  {
    if code != [] {
      HeightAccounting(s, code[..|code| - 1]);
    }
  }

  /**
   * Push 10, Push 2, Push 3, Pull(Global, 0), Pop(2) from an empty stack ends
   * with [10, 2, 10].
   */
  lemma SampleProgram()
    ensures RunScopes(Stack.Global([]), [Scope.Global([
              Push(Int(10)), Push(Int(2)), Push(Int(3)),
              Pull(ValueScope.Global, 0), Pop(2)])])
            == Running(Stack.Global([Int(10), Int(2), Int(10)]))
  {
    var c1 := [Push(Int(10))];
    var c2 := c1 + [Push(Int(2))];
    var c3 := c2 + [Push(Int(3))];
    var c4 := c3 + [Pull(ValueScope.Global, 0)];
    var c5 := c4 + [Pop(2)];
    assert c1[..0] == [] && c2[..1] == c1 && c3[..2] == c2 && c4[..3] == c3 && c5[..4] == c4;
    var s0: seq<Value> := [];
    var s1 := s0 + [Int(10)];
    var s2 := s1 + [Int(2)];
    var s3 := s2 + [Int(3)];
    var s4 := s3 + [Int(10)];
    PushAppends(s0, Int(10));
    PushAppends(s1, Int(2));
    PushAppends(s2, Int(3));
    PullCopies(s3, ValueScope.Global, 0);
    assert RunNodes(Stack.Global(s0), c1) == Running(Stack.Global(s1));
    assert RunNodes(Stack.Global(s0), c2) == Running(Stack.Global(s2));
    assert RunNodes(Stack.Global(s0), c3) == Running(Stack.Global(s3));
    assert s3[0] == Int(10);
    assert RunNodes(Stack.Global(s0), c4) == Running(Stack.Global(s4));
    assert Remove(s4, 2) == [Int(10), Int(2), Int(10)];
    assert s0 == [];
    assert [Scope.Global(c5)][..0] == [];
    assert c5 == [Push(Int(10)), Push(Int(2)), Push(Int(3)), Pull(ValueScope.Global, 0), Pop(2)];
  }
}
