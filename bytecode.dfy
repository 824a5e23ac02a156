/** Values and instructions of the stack machine (utils/src/backend/bytecode.rs). */
module Bytecode {

  /** Rust's i32. */
  newtype Int32 = x: int | -0x8000_0000 <= x < 0x8000_0000

  /**
   * A runtime value. The f32 payload of Float is kept as its 32-bit pattern
   * and never interpreted.
   */
  datatype Value =
    | Int(int32: Int32)
    | Float(bits: bv32)
    | String(text: string)
    | Array(items: seq<Value>)

  datatype ValueScope = Global | Local | Args

  /** Indices are Rust usize values; Pull names a (scope, index) pair. */
  datatype ByteNode =
    | Push(value: Value)
    | Pull(scope: ValueScope, index: nat)
    | Pop(index: nat)
    | Mov(index: nat)
    | Add
    | Sub
    | Mul
    | Div

  /** A scope is run at top level (Global) or belongs to an unnamed function. */
  datatype Scope =
    | Global(code: seq<ByteNode>)
    | Function(code: seq<ByteNode>)

  datatype ByteCode = ByteCode(code: seq<Scope>)

  /** How deeply arrays nest inside a value. */
  function Depth(v: Value): nat
  {
    match v
    case Array(items) => 1 + MaxDepth(items)
    case _ => 0
  }

  function MaxDepth(vs: seq<Value>): nat
  {
    if vs == [] then 0
    else var d := MaxDepth(vs[1..]); if Depth(vs[0]) > d then Depth(vs[0]) else d
  }

  lemma {:induction false} MaxDepthBounds(vs: seq<Value>, k: nat)
    requires k < |vs|
    ensures Depth(vs[k]) <= MaxDepth(vs)
  {
    if k > 0 {
      MaxDepthBounds(vs[1..], k - 1);
    }
  }

  /** Every element of an array value nests strictly less deeply than the array. */
  lemma ElementsNestLess(v: Value, k: nat)
    requires v.Array? && k < |v.items|
    ensures Depth(v.items[k]) < Depth(v)
  {
    MaxDepthBounds(v.items, k);
  }
}
