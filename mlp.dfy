/**
 * The layer naming and validation of `build_mlp` in `imitation.util.networks`.
 *
 * `build_mlp` fills an ordered dictionary from layer names to torch modules and
 * wraps it in `nn.Sequential`. The model keeps the dictionary as a sequence of
 * named entries in insertion order, with each module reduced to the sizes it
 * is built with; `MlpNamesDistinct` shows that no name is inserted twice, so
 * appending an entry is exactly the dictionary insertion.
 */
module Mlp {
  import opened Wrappers

  // ---------------------------------------------------------------------------
  // Layers and their names

  /** The module stored under a name: only what `build_mlp` passes to it. */
  datatype Layer =
    | Flatten
    | NormalizeInput(size: nat)
    | Linear(inSize: nat, outSize: nat)
    | Activation
    | Dropout(p: real)
    | Squeeze

  /** Which of `build_mlp`'s layer names an entry uses: the part after the prefix, with the hidden-layer index. */
  datatype Key =
    | FlattenKey
    | NormalizeKey
    | DenseKey(i: nat)
    | ActKey(i: nat)
    | DropoutKey(i: nat)
    | DenseFinalKey
    | SqueezeKey

  /** One planned layer: the key it is registered under and the module. */
  datatype Slot = Slot(key: Key, layer: Layer)

  /** One dictionary entry: the layer's name and the module. */
  datatype Entry = Entry(name: string, layer: Layer)

  /** The decimal digit `d` as a character. */
  function DigitChar(d: nat): (c: char)
    requires d < 10
    ensures '0' <= c <= '9'
  {
    (('0' as int) + d) as char
  }

  /** The decimal representation of `n`, as an f-string writes `{i}`. */
  function NatToString(n: nat): (s: string)
    ensures |s| > 0 && forall i :: 0 <= i < |s| ==> '0' <= s[i] <= '9'
  {
    if n < 10 then [DigitChar(n)] else NatToString(n / 10) + [DigitChar(n % 10)]
  }

  /** Distinct numbers have distinct decimal representations. */
  lemma {:induction false} NatToStringInjective(a: nat, b: nat)
    requires NatToString(a) == NatToString(b)
    ensures a == b
  {
    var sa, sb := NatToString(a), NatToString(b);
    if a < 10 && b < 10 {
      assert sa[0] == DigitChar(a) && sb[0] == DigitChar(b);
    } else if a < 10 || b < 10 {
      // one representation has a single digit, the other more
      assert false;
    } else {
      assert sa[|sa| - 1] == DigitChar(a % 10) && sb[|sb| - 1] == DigitChar(b % 10);
      assert NatToString(a / 10) == sa[..|sa| - 1] == sb[..|sb| - 1] == NatToString(b / 10);
      NatToStringInjective(a / 10, b / 10);
    }
  }

  /** The name prefix: `""` without a name, else `f"{name}_"`. */
  function Prefix(name: Option<string>): string
  {
    if name.None? then "" else name.value + "_"
  }

  /** The part of a layer name after the prefix. */
  function BaseName(k: Key): string
  {
    match k
    case FlattenKey => "flatten"
    case NormalizeKey => "normalize_input"
    case DenseKey(i) => "dense" + NatToString(i)
    case ActKey(i) => "act" + NatToString(i)
    case DropoutKey(i) => "dropout" + NatToString(i)
    case DenseFinalKey => "dense_final"
    case SqueezeKey => "squeeze"
  }

  /** The full name a layer is registered under. */
  function KeyName(prefix: string, k: Key): string
  {
    prefix + BaseName(k)
  }

  /** `text + NatToString(i)` determines `i`. */
  lemma {:induction false} IndexedNameInjective(text: string, i: nat, j: nat)
    requires text + NatToString(i) == text + NatToString(j)
    ensures i == j
  {
    assert NatToString(i) == (text + NatToString(i))[|text|..];
    assert NatToString(j) == (text + NatToString(j))[|text|..];
    NatToStringInjective(i, j);
  }

  /** Different keys have different base names. */
  lemma {:induction false} BaseNameInjective(k1: Key, k2: Key)
    requires BaseName(k1) == BaseName(k2)
    ensures k1 == k2
  {
    var s1, s2 := BaseName(k1), BaseName(k2);
    assert s1[0] == s2[0] && s1[1] == s2[1];
    if |s1| > 5 {
      assert s1[5] == s2[5];
    }
    match k1
    case DenseKey(i) =>
      if k2.DenseKey? {
        IndexedNameInjective("dense", i, k2.i);
      }
    case ActKey(i) =>
      if k2.ActKey? {
        IndexedNameInjective("act", i, k2.i);
      }
    case DropoutKey(i) =>
      if k2.DropoutKey? {
        IndexedNameInjective("dropout", i, k2.i);
      }
    case _ =>
  }

  /** Under a common prefix, different keys give different names. */
  lemma {:induction false} KeyNameInjective(prefix: string, k1: Key, k2: Key)
    requires KeyName(prefix, k1) == KeyName(prefix, k2)
    ensures k1 == k2
  {
    assert BaseName(k1) == KeyName(prefix, k1)[|prefix|..];
    assert BaseName(k2) == KeyName(prefix, k2)[|prefix|..];
    BaseNameInjective(k1, k2);
  }

  // ---------------------------------------------------------------------------
  // The planned layers

  /** The layers of hidden layer `i`: `dense{i}`, then `act{i}` if there is an activation, then `dropout{i}` if `dropout_prob > 0`. */
  function Block(i: nat, prev: nat, size: nat, activation: bool, dropoutProb: real): seq<Slot>
  {
    [Slot(DenseKey(i), Linear(prev, size))] + BlockTail(i, activation, dropoutProb)
  }

  /** The layers of hidden layer `i` after `dense{i}`. */
  function BlockTail(i: nat, activation: bool, dropoutProb: real): seq<Slot>
  {
    (if activation then [Slot(ActKey(i), Activation)] else [])
      + (if dropoutProb > 0.0 then [Slot(DropoutKey(i), Dropout(dropoutProb))] else [])
  }

  /** `prev_size` after the hidden sizes `hid`: the last of them, or `in_size`. */
  function LastSize(inSize: nat, hid: seq<nat>): nat
  {
    if hid == [] then inSize else hid[|hid| - 1]
  }

  /** The hidden layers for the hidden sizes `hid`, block by block. */
  function Hidden(inSize: nat, hid: seq<nat>, activation: bool, dropoutProb: real): seq<Slot>
  {
    if hid == [] then []
    else
      var init := hid[..|hid| - 1];
      Hidden(inSize, init, activation, dropoutProb) + Block(|hid| - 1, LastSize(inSize, init), hid[|hid| - 1], activation, dropoutProb)
  }

  /** The layers before the hidden ones: `flatten` and `normalize_input` when requested. */
  function Intro(inSize: nat, flattenInput: bool, normalizeInput: bool): seq<Slot>
  {
    (if flattenInput then [Slot(FlattenKey, Flatten)] else [])
      + (if normalizeInput then [Slot(NormalizeKey, NormalizeInput(inSize))] else [])
  }

  /** Every layer `build_mlp` registers when it does not raise, in order. */
  function Plan(inSize: nat, hid: seq<nat>, outSize: nat, activation: bool, dropoutProb: real,
                squeezeOutput: bool, flattenInput: bool, normalizeInput: bool): seq<Slot>
  {
    Intro(inSize, flattenInput, normalizeInput)
      + Hidden(inSize, hid, activation, dropoutProb)
      + [Slot(DenseFinalKey, Linear(LastSize(inSize, hid), outSize))]
      + (if squeezeOutput then [Slot(SqueezeKey, Squeeze)] else [])
  }

  /** The planned layers under their full names. */
  function Named(prefix: string, p: seq<Slot>): (es: seq<Entry>)
    ensures |es| == |p|
  {
    seq(|p|, i requires 0 <= i < |p| => Entry(KeyName(prefix, p[i].key), p[i].layer))
  }

  lemma {:induction false} NamedAppend(prefix: string, p: seq<Slot>, s: Slot)
    ensures Named(prefix, p + [s]) == Named(prefix, p) + [Entry(KeyName(prefix, s.key), s.layer)]
  {
    var l, r := Named(prefix, p + [s]), Named(prefix, p) + [Entry(KeyName(prefix, s.key), s.layer)];
    forall i | 0 <= i < |l|
      ensures l[i] == r[i]
    {
      if i < |p| {
        assert (p + [s])[i] == p[i];
      }
    }
  }

  /** One more hidden size adds its block at the end. */
  lemma {:induction false} HiddenStep(inSize: nat, hid: seq<nat>, i: nat, activation: bool, dropoutProb: real)
    requires i < |hid|
    ensures Hidden(inSize, hid[..i + 1], activation, dropoutProb)
      == Hidden(inSize, hid[..i], activation, dropoutProb) + Block(i, LastSize(inSize, hid[..i]), hid[i], activation, dropoutProb)
  {
    assert hid[..i + 1][..i] == hid[..i];
  }

  lemma {:induction false} AppendAssoc<T>(a: seq<T>, b: seq<T>, c: seq<T>)
    ensures (a + b) + c == a + (b + c)
  {
  }

  // ---------------------------------------------------------------------------
  // Properties of the planned layers

  /** The `nn.Linear` layers of a plan, in order. */
  function Linears(p: seq<Slot>): seq<Layer>
  {
    if p == [] then [] else (if p[0].layer.Linear? then [p[0].layer] else []) + Linears(p[1..])
  }

  lemma {:induction false} LinearsConcat(a: seq<Slot>, b: seq<Slot>)
    ensures Linears(a + b) == Linears(a) + Linears(b)
  {
    if a == [] {
      assert a + b == b;
    } else {
      assert (a + b)[0] == a[0] && (a + b)[1..] == a[1..] + b;
      LinearsConcat(a[1..], b);
    }
  }

  /**
   * The chain of linear maps an MLP with these sizes should have: from
   * `in_size` through every hidden size to `out_size`, each layer's input
   * size the previous layer's output size.
   */
  function Chain(inSize: nat, hid: seq<nat>, outSize: nat): (c: seq<Layer>)
    ensures |c| == |hid| + 1
  {
    seq(|hid| + 1, i requires 0 <= i <= |hid| =>
      Linear(if i == 0 then inSize else hid[i - 1], if i < |hid| then hid[i] else outSize))
  }

  /** A plan without linear layers contributes none. */
  lemma {:induction false} NoLinears(p: seq<Slot>)
    requires forall i :: 0 <= i < |p| ==> !p[i].layer.Linear?
    ensures Linears(p) == []
  {
    if p != [] {
      assert !p[0].layer.Linear?;
      NoLinears(p[1..]);
    }
  }

  /** A block's only linear layer is its `dense{i}`. */
  lemma {:induction false} BlockLinears(i: nat, prev: nat, size: nat, activation: bool, dropoutProb: real)
    ensures Linears(Block(i, prev, size, activation, dropoutProb)) == [Linear(prev, size)]
  {
    LinearsConcat([Slot(DenseKey(i), Linear(prev, size))], BlockTail(i, activation, dropoutProb));
    NoLinears(BlockTail(i, activation, dropoutProb));
    assert Linears([Slot(DenseKey(i), Linear(prev, size))]) == [Linear(prev, size)];
  }

  /** The linear layers of the hidden blocks: `dense{i}` maps the previous size to `hid[i]`. */
  lemma {:induction false} HiddenLinears(inSize: nat, hid: seq<nat>, activation: bool, dropoutProb: real)
    ensures |Linears(Hidden(inSize, hid, activation, dropoutProb))| == |hid|
    ensures forall i :: 0 <= i < |hid| ==>
      Linears(Hidden(inSize, hid, activation, dropoutProb))[i] == Linear(if i == 0 then inSize else hid[i - 1], hid[i])
  {
    if hid != [] {
      var n := |hid|;
      var init := hid[..n - 1];
      var block := Block(n - 1, LastSize(inSize, init), hid[n - 1], activation, dropoutProb);
      HiddenLinears(inSize, init, activation, dropoutProb);
      var ls := Linears(Hidden(inSize, init, activation, dropoutProb));
      assert Hidden(inSize, hid, activation, dropoutProb) == Hidden(inSize, init, activation, dropoutProb) + block;
      LinearsConcat(Hidden(inSize, init, activation, dropoutProb), block);
      BlockLinears(n - 1, LastSize(inSize, init), hid[n - 1], activation, dropoutProb);
      var all := ls + [Linear(LastSize(inSize, init), hid[n - 1])];
      assert Linears(Hidden(inSize, hid, activation, dropoutProb)) == all;
      forall i | 0 <= i < n
        ensures all[i] == Linear(if i == 0 then inSize else hid[i - 1], hid[i])
      {
        if i < n - 1 {
          assert all[i] == ls[i] == Linear(if i == 0 then inSize else init[i - 1], init[i]);
          assert init[i] == hid[i];
          if i > 0 {
            assert init[i - 1] == hid[i - 1];
          }
        } else {
          assert |ls| == n - 1 && all[i] == Linear(LastSize(inSize, init), hid[n - 1]);
          if n > 1 {
            assert LastSize(inSize, init) == init[n - 2] == hid[n - 2];
          } else {
            assert LastSize(inSize, init) == inSize;
          }
        }
      }
    }
  }

  lemma {:induction false} HiddenLinearAt(inSize: nat, hid: seq<nat>, activation: bool, dropoutProb: real, i: nat)
    requires i < |hid|
    ensures i < |Linears(Hidden(inSize, hid, activation, dropoutProb))|
    ensures Linears(Hidden(inSize, hid, activation, dropoutProb))[i] == Linear(if i == 0 then inSize else hid[i - 1], hid[i])
  {
    HiddenLinears(inSize, hid, activation, dropoutProb);
  }

  /**
   * `build_mlp` emits one `nn.Linear` per hidden size and then `dense_final`,
   * and they chain: `in_size` to the first hidden size, each hidden size to
   * the next, the last (or `in_size`) to `out_size`.
   */
  lemma {:induction false} MlpLinearChain(inSize: nat, hid: seq<nat>, outSize: nat, activation: bool, dropoutProb: real,
                                          squeezeOutput: bool, flattenInput: bool, normalizeInput: bool)
    ensures Linears(Plan(inSize, hid, outSize, activation, dropoutProb, squeezeOutput, flattenInput, normalizeInput))
      == Chain(inSize, hid, outSize)
  {
    PlanLinears(inSize, hid, outSize, activation, dropoutProb, squeezeOutput, flattenInput, normalizeInput);
    HiddenLinears(inSize, hid, activation, dropoutProb);
    var ls := Linears(Hidden(inSize, hid, activation, dropoutProb)) + [Linear(LastSize(inSize, hid), outSize)];
    var c := Chain(inSize, hid, outSize);
    forall i | 0 <= i < |c|
      ensures ls[i] == c[i]
    {
      assert c[i] == Linear(if i == 0 then inSize else hid[i - 1], if i < |hid| then hid[i] else outSize);
      if i < |hid| {
        HiddenLinearAt(inSize, hid, activation, dropoutProb, i);
        assert ls[i] == Linears(Hidden(inSize, hid, activation, dropoutProb))[i];
      } else {
        assert ls[i] == Linear(LastSize(inSize, hid), outSize);
        assert LastSize(inSize, hid) == if i == 0 then inSize else hid[i - 1];
      }
    }
  }

  /** The linear layers of a plan are those of its hidden blocks followed by `dense_final`. */
  lemma {:induction false} PlanLinears(inSize: nat, hid: seq<nat>, outSize: nat, activation: bool, dropoutProb: real,
                                       squeezeOutput: bool, flattenInput: bool, normalizeInput: bool)
    ensures Linears(Plan(inSize, hid, outSize, activation, dropoutProb, squeezeOutput, flattenInput, normalizeInput))
      == Linears(Hidden(inSize, hid, activation, dropoutProb)) + [Linear(LastSize(inSize, hid), outSize)]
  {
    var intro, hidden := Intro(inSize, flattenInput, normalizeInput), Hidden(inSize, hid, activation, dropoutProb);
    var final := [Slot(DenseFinalKey, Linear(LastSize(inSize, hid), outSize))];
    IntroNoLinears(inSize, flattenInput, normalizeInput);
    LinearsConcat(intro, hidden);
    assert Linears(intro + hidden) == Linears(hidden);
    LinearsConcat(intro + hidden, final);
    assert Linears(final) == [Linear(LastSize(inSize, hid), outSize)];
    if squeezeOutput {
      LinearsConcat(intro + hidden + final, [Slot(SqueezeKey, Squeeze)]);
      assert Linears([Slot(SqueezeKey, Squeeze)]) == [];
    } else {
      assert intro + hidden + final + [] == intro + hidden + final;
    }
  }

  /** The optional `flatten` and `normalize_input` layers are not linear. */
  lemma {:induction false} IntroNoLinears(inSize: nat, flattenInput: bool, normalizeInput: bool)
    ensures Linears(Intro(inSize, flattenInput, normalizeInput)) == []
  {
    NoLinears(Intro(inSize, flattenInput, normalizeInput));
  }

  /**
   * The position of a key in the order `build_mlp` inserts keys, for `n`
   * hidden layers: `flatten`, `normalize_input`, the blocks in order, then
   * `dense_final` and `squeeze`.
   */
  function Rank(k: Key, n: nat): nat
  {
    match k
    case FlattenKey => 0
    case NormalizeKey => 1
    case DenseKey(i) => 3 * i + 2
    case ActKey(i) => 3 * i + 3
    case DropoutKey(i) => 3 * i + 4
    case DenseFinalKey => 3 * n + 2
    case SqueezeKey => 3 * n + 3
  }

  /** The keys of `p` come in strictly increasing rank, all within `[lo, hi)`. */
  predicate Ordered(p: seq<Slot>, n: nat, lo: nat, hi: nat)
  {
    (forall i, j :: 0 <= i < j < |p| ==> Rank(p[i].key, n) < Rank(p[j].key, n)) &&
    (forall i :: 0 <= i < |p| ==> lo <= Rank(p[i].key, n) < hi)
  }

  lemma {:induction false} OrderedConcat(a: seq<Slot>, b: seq<Slot>, n: nat, lo: nat, mid: nat, hi: nat)
    requires lo <= mid <= hi && Ordered(a, n, lo, mid) && Ordered(b, n, mid, hi)
    ensures Ordered(a + b, n, lo, hi)
  {
    var c := a + b;
    forall i | 0 <= i < |c|
      ensures lo <= Rank(c[i].key, n) < hi
    {
      if i < |a| {
        assert c[i] == a[i];
      } else {
        assert c[i] == b[i - |a|];
      }
    }
    forall i, j | 0 <= i < j < |c|
      ensures Rank(c[i].key, n) < Rank(c[j].key, n)
    {
      if j < |a| {
        assert c[i] == a[i] && c[j] == a[j];
      } else if i >= |a| {
        assert c[i] == b[i - |a|] && c[j] == b[j - |a|];
      } else {
        assert c[i] == a[i] && c[j] == b[j - |a|];
      }
    }
  }

  /** The hidden blocks insert their keys in increasing rank, after the opening layers and before `dense_final`. */
  lemma {:induction false} HiddenOrdered(inSize: nat, hid: seq<nat>, activation: bool, dropoutProb: real, n: nat)
    ensures Ordered(Hidden(inSize, hid, activation, dropoutProb), n, 2, 3 * |hid| + 2)
  {
    if hid != [] {
      var m := |hid| - 1;
      var init := hid[..m];
      HiddenOrdered(inSize, init, activation, dropoutProb, n);
      var block := Block(m, LastSize(inSize, init), hid[m], activation, dropoutProb);
      assert Ordered(block, n, 3 * m + 2, 3 * m + 5);
      OrderedConcat(Hidden(inSize, init, activation, dropoutProb), block, n, 2, 3 * m + 2, 3 * m + 5);
    }
  }

  /** The keys of a plan come in increasing rank. */
  lemma {:induction false} PlanOrdered(inSize: nat, hid: seq<nat>, outSize: nat, activation: bool, dropoutProb: real,
                                       squeezeOutput: bool, flattenInput: bool, normalizeInput: bool)
    ensures Ordered(Plan(inSize, hid, outSize, activation, dropoutProb, squeezeOutput, flattenInput, normalizeInput),
                    |hid|, 0, 3 * |hid| + 4)
  {
    var n := |hid|;
    var body := Intro(inSize, flattenInput, normalizeInput) + Hidden(inSize, hid, activation, dropoutProb);
    var final := [Slot(DenseFinalKey, Linear(LastSize(inSize, hid), outSize))];
    var squeeze := if squeezeOutput then [Slot(SqueezeKey, Squeeze)] else [];
    BodyOrdered(inSize, hid, activation, dropoutProb, flattenInput, normalizeInput);
    assert Ordered(final, n, 3 * n + 2, 3 * n + 3);
    OrderedConcat(body, final, n, 0, 3 * n + 2, 3 * n + 3);
    assert Ordered(squeeze, n, 3 * n + 3, 3 * n + 4);
    OrderedConcat(body + final, squeeze, n, 0, 3 * n + 3, 3 * n + 4);
  }

  /** The opening layers and the hidden blocks insert their keys in increasing rank. */
  lemma {:induction false} BodyOrdered(inSize: nat, hid: seq<nat>, activation: bool, dropoutProb: real,
                                       flattenInput: bool, normalizeInput: bool)
    ensures Ordered(Intro(inSize, flattenInput, normalizeInput) + Hidden(inSize, hid, activation, dropoutProb),
                    |hid|, 0, 3 * |hid| + 2)
  {
    IntroOrdered(inSize, flattenInput, normalizeInput, |hid|);
    HiddenOrdered(inSize, hid, activation, dropoutProb, |hid|);
    OrderedConcat(Intro(inSize, flattenInput, normalizeInput), Hidden(inSize, hid, activation, dropoutProb),
                  |hid|, 0, 2, 3 * |hid| + 2);
  }

  lemma {:induction false} IntroOrdered(inSize: nat, flattenInput: bool, normalizeInput: bool, n: nat)
    ensures Ordered(Intro(inSize, flattenInput, normalizeInput), n, 0, 2)
  {
    var f := if flattenInput then [Slot(FlattenKey, Flatten)] else [];
    var z := if normalizeInput then [Slot(NormalizeKey, NormalizeInput(inSize))] else [];
    assert Ordered(f, n, 0, 1);
    assert Ordered(z, n, 1, 2);
    OrderedConcat(f, z, n, 0, 1, 2);
  }

  /**
   * No layer name is inserted twice, so every `layers[...] = ...` of
   * `build_mlp` adds a new entry at the end of the ordered dictionary; and
   * every name starts with the prefix.
   */
  lemma {:induction false} MlpNamesDistinct(inSize: nat, hid: seq<nat>, outSize: nat, name: Option<string>, activation: bool,
                                            dropoutProb: real, squeezeOutput: bool, flattenInput: bool, normalizeInput: bool)
    ensures var es := Named(Prefix(name), Plan(inSize, hid, outSize, activation, dropoutProb, squeezeOutput, flattenInput, normalizeInput));
      (forall i, j :: 0 <= i < j < |es| ==> es[i].name != es[j].name) &&
      (forall i :: 0 <= i < |es| ==> Prefix(name) <= es[i].name)
  {
    var p := Plan(inSize, hid, outSize, activation, dropoutProb, squeezeOutput, flattenInput, normalizeInput);
    PlanOrdered(inSize, hid, outSize, activation, dropoutProb, squeezeOutput, flattenInput, normalizeInput);
    var es := Named(Prefix(name), p);
    forall i, j | 0 <= i < j < |es|
      ensures es[i].name != es[j].name
    {
      if es[i].name == es[j].name {
        KeyNameInjective(Prefix(name), p[i].key, p[j].key);
      }
    }
  }

  // ---------------------------------------------------------------------------
  // build_mlp

  /** The `ValueError` that `nn.Dropout(p)` raises for `p` outside `[0, 1]`. */
  const DropoutRangeError := "dropout probability has to be between 0 and 1"

  /**
   * `build_mlp`: the entries of the ordered dictionary handed to
   * `nn.Sequential`, or a `ValueError`: from `nn.Dropout` in the first
   * hidden block when `dropout_prob > 1`, or when `squeeze_output` is set
   * with `out_size != 1`. `activation` and `normalizeInput` say whether
   * those module classes are given.
   */
  method BuildMlp(inSize: nat, hidSizes: seq<nat>, outSize: nat, name: Option<string>, activation: bool,
                  dropoutProb: real, squeezeOutput: bool, flattenInput: bool, normalizeInput: bool)
    returns (r: Result<seq<Entry>, string>)
    ensures r.Err? <==> (|hidSizes| > 0 && dropoutProb > 1.0) || (squeezeOutput && outSize != 1)
    ensures |hidSizes| > 0 && dropoutProb > 1.0 ==> r == Err(DropoutRangeError)
    ensures r.Ok? ==>
      r.value == Named(Prefix(name), Plan(inSize, hidSizes, outSize, activation, dropoutProb, squeezeOutput, flattenInput, normalizeInput))
  {
    var prefix := if name.None? then "" else name.value + "_";
    assert prefix == Prefix(name);
    var layers := AddIntro(prefix, inSize, flattenInput, normalizeInput);
    ghost var plan := Intro(inSize, flattenInput, normalizeInput);
    var hidden, prevSize := AddHidden(layers, plan, prefix, inSize, hidSizes, activation, dropoutProb);
    if hidden.Err? {
      return Err(hidden.error);
    }
    r := AddOutput(hidden.value, plan + Hidden(inSize, hidSizes, activation, dropoutProb), prefix, prevSize, outSize, squeezeOutput);
  }

  /** The optional `flatten` and `normalize_input` layers that open the network. */
  method AddIntro(prefix: string, inSize: nat, flattenInput: bool, normalizeInput: bool) returns (layers: seq<Entry>)
    ensures layers == Named(prefix, Intro(inSize, flattenInput, normalizeInput))
  {
    layers := [];
    ghost var plan: seq<Slot> := [];
    if flattenInput {
      layers := layers + [Entry(prefix + "flatten", Flatten)];
      NamedAppend(prefix, plan, Slot(FlattenKey, Flatten));
      plan := plan + [Slot(FlattenKey, Flatten)];
    }
    if normalizeInput {
      layers := layers + [Entry(prefix + "normalize_input", NormalizeInput(inSize))];
      NamedAppend(prefix, plan, Slot(NormalizeKey, NormalizeInput(inSize)));
      plan := plan + [Slot(NormalizeKey, NormalizeInput(inSize))];
    }
    assert plan == Intro(inSize, flattenInput, normalizeInput);
  }

  /**
   * The hidden-layer loop of `build_mlp`: for each hidden size, `dense{i}`
   * from `prev_size` to that size, then `act{i}` and `dropout{i}` as
   * requested. Returns the extended entries and the final `prev_size`, or
   * the error of the first block's `nn.Dropout`.
   */
  method AddHidden(layers0: seq<Entry>, ghost intro: seq<Slot>, prefix: string, inSize: nat, hidSizes: seq<nat>,
                   activation: bool, dropoutProb: real) returns (r: Result<seq<Entry>, string>, prevSize: nat)
    requires layers0 == Named(prefix, intro)
    ensures r.Err? <==> |hidSizes| > 0 && dropoutProb > 1.0
    ensures r.Err? ==> r.error == DropoutRangeError
    ensures r.Ok? ==> r.value == Named(prefix, intro + Hidden(inSize, hidSizes, activation, dropoutProb))
    ensures r.Ok? ==> prevSize == LastSize(inSize, hidSizes)
  {
    var layers := layers0;
    ghost var plan := intro;
    prevSize := inSize;
    for i := 0 to |hidSizes|
      invariant i > 0 ==> dropoutProb <= 1.0
      invariant prevSize == LastSize(inSize, hidSizes[..i])
      invariant plan == intro + Hidden(inSize, hidSizes[..i], activation, dropoutProb)
      invariant layers == Named(prefix, plan)
    {
      var size := hidSizes[i];
      var block := AddBlock(layers, plan, prefix, i, prevSize, size, activation, dropoutProb);
      if block.Err? {
        return block, prevSize;
      }
      layers := block.value;
      HiddenStep(inSize, hidSizes, i, activation, dropoutProb);
      AppendAssoc(intro, Hidden(inSize, hidSizes[..i], activation, dropoutProb),
                  Block(i, prevSize, size, activation, dropoutProb));
      plan := plan + Block(i, prevSize, size, activation, dropoutProb);
      prevSize := size;
    }
    assert hidSizes[..|hidSizes|] == hidSizes;
    r := Ok(layers);
  }

  /**
   * One pass of the hidden-layer loop: `dense{i}`, then `act{i}` and
   * `dropout{i}` as requested; `nn.Dropout` rejects a probability above 1.
   */
  method AddBlock(layers0: seq<Entry>, ghost plan: seq<Slot>, prefix: string, i: nat, prevSize: nat, size: nat,
                  activation: bool, dropoutProb: real) returns (r: Result<seq<Entry>, string>)
    requires layers0 == Named(prefix, plan)
    ensures r.Err? <==> dropoutProb > 1.0
    ensures r.Err? ==> r.error == DropoutRangeError
    ensures r.Ok? ==> r.value == Named(prefix, plan + Block(i, prevSize, size, activation, dropoutProb))
  {
    assert prefix + "dense" + NatToString(i) == KeyName(prefix, DenseKey(i));
    var layers := layers0 + [Entry(prefix + "dense" + NatToString(i), Linear(prevSize, size))];
    NamedAppend(prefix, plan, Slot(DenseKey(i), Linear(prevSize, size)));
    r := AddBlockTail(layers, plan + [Slot(DenseKey(i), Linear(prevSize, size))], prefix, i, activation, dropoutProb);
    AppendAssoc(plan, [Slot(DenseKey(i), Linear(prevSize, size))], BlockTail(i, activation, dropoutProb));
  }

  /** The rest of a hidden block after `dense{i}`: `act{i}` and `dropout{i}` as requested. */
  method AddBlockTail(layers0: seq<Entry>, ghost plan: seq<Slot>, prefix: string, i: nat, activation: bool,
                      dropoutProb: real) returns (r: Result<seq<Entry>, string>)
    requires layers0 == Named(prefix, plan)
    ensures r.Err? <==> dropoutProb > 1.0
    ensures r.Err? ==> r.error == DropoutRangeError
    ensures r.Ok? ==> r.value == Named(prefix, plan + BlockTail(i, activation, dropoutProb))
  {
    var layers := layers0;
    ghost var p := plan;
    if activation {
      assert prefix + "act" + NatToString(i) == KeyName(prefix, ActKey(i));
      layers := layers + [Entry(prefix + "act" + NatToString(i), Activation)];
      NamedAppend(prefix, p, Slot(ActKey(i), Activation));
      p := p + [Slot(ActKey(i), Activation)];
    }
    if dropoutProb > 0.0 {
      if dropoutProb > 1.0 {
        return Err(DropoutRangeError);
      }
      assert prefix + "dropout" + NatToString(i) == KeyName(prefix, DropoutKey(i));
      layers := layers + [Entry(prefix + "dropout" + NatToString(i), Dropout(dropoutProb))];
      NamedAppend(prefix, p, Slot(DropoutKey(i), Dropout(dropoutProb)));
      p := p + [Slot(DropoutKey(i), Dropout(dropoutProb))];
    }
    assert p == plan + BlockTail(i, activation, dropoutProb);
    r := Ok(layers);
  }

  /**
   * The end of `build_mlp`: `dense_final` from `prev_size` to `out_size`,
   * then the squeeze layer when requested, which needs `out_size == 1`.
   */
  method AddOutput(layers0: seq<Entry>, ghost plan: seq<Slot>, prefix: string, prevSize: nat, outSize: nat, squeezeOutput: bool)
    returns (r: Result<seq<Entry>, string>)
    requires layers0 == Named(prefix, plan)
    ensures r.Err? <==> squeezeOutput && outSize != 1
    ensures r.Ok? ==> r.value == Named(prefix, plan + [Slot(DenseFinalKey, Linear(prevSize, outSize))]
                                                  + (if squeezeOutput then [Slot(SqueezeKey, Squeeze)] else []))
  {
    var layers := layers0 + [Entry(prefix + "dense_final", Linear(prevSize, outSize))];
    NamedAppend(prefix, plan, Slot(DenseFinalKey, Linear(prevSize, outSize)));
    ghost var p := plan + [Slot(DenseFinalKey, Linear(prevSize, outSize))];
    if squeezeOutput {
      if outSize != 1 {
        return Err("squeeze_output is only applicable when out_size=1");
      }
      layers := layers + [Entry(prefix + "squeeze", Squeeze)];
      NamedAppend(prefix, p, Slot(SqueezeKey, Squeeze));
      p := p + [Slot(SqueezeKey, Squeeze)];
    } else {
      assert p + [] == p;
    }
    r := Ok(layers);
  }
}
