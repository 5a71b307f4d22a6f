/** The drafter's grouped convolution: one flat shifted pass over all tokens has to be a separate
    causal convolution within every block. One channel is modelled; all go the same way. */
module GroupedConv {
  import opened FlatIndex

  // Bitwise and of two naturals.
  function And(a: nat, b: nat): nat {
    if a == 0 || b == 0 then 0 else 2 * And(a / 2, b / 2) + (a % 2) * (b % 2)
  }

  function Pow2(n: nat): (p: nat)
    ensures 0 < p
  {
    if n == 0 then 1 else 2 * Pow2(n - 1)
  }

  lemma {:induction false} AndZero(a: nat, b: nat)
    ensures And(a, b) == And(b, a) && And(a, 0) == 0
    decreases a
  {
    if a != 0 && b != 0 {
      AndZero(a / 2, b / 2);
    }
  }

  lemma HalveBoth(a: nat, p: nat)
    requires 0 < p
    ensures a % (2 * p) == 2 * ((a / 2) % p) + a % 2
  {
    var q := (a / 2) / p;
    assert a / 2 == q * p + (a / 2) % p;
    assert a == (2 * p) * q + (2 * ((a / 2) % p) + a % 2);
    DivModIs(a, 2 * p, q, 2 * ((a / 2) % p) + a % 2);
  }

  lemma DivModIs(a: nat, d: nat, q: nat, r: nat)
    requires 0 < d && r < d && a == d * q + r
    ensures a % d == r && a / d == q
  {
    assert a == (a / d) * d + a % d && d * q == q * d;
    PlaceApart(a / d, q, d, a % d, r);
  }

  /** Masking with one less than a power of two is the remainder. */
  lemma {:induction false} MaskIsModulus(a: nat, n: nat)
    ensures And(a, Pow2(n) - 1) == a % Pow2(n)
    decreases n
  {
    if n == 0 {
      AndZero(a, 0);
    } else {
      var p := Pow2(n - 1);
      assert (2 * p - 1) / 2 == p - 1 && (2 * p - 1) % 2 == 1;
      MaskIsModulus(a / 2, n - 1);
      HalveBoth(a, p);
    }
  }

  /** A number passes the single-bit test only if it is a power of two. */
  lemma {:induction false} SingleBit(b: nat) returns (n: nat)
    requires 0 < b && And(b, b - 1) == 0
    ensures b == Pow2(n)
    decreases b
  {
    if b == 1 {
      n := 0;
    } else if b % 2 == 0 {
      assert (b - 1) / 2 == b / 2 - 1;
      var m := SingleBit(b / 2);
      n := m + 1;
    } else {
      assert (b - 1) / 2 == b / 2;
      AndSelf(b / 2);
      assert false;
    }
  }

  lemma {:induction false} AndSelf(a: nat)
    ensures And(a, a) == a
  {
    if a != 0 {
      AndSelf(a / 2);
    }
  }

  // A token's place in its block.
  function Position(row: nat, block: nat): nat
    requires 0 < block
  {
    if And(block, block - 1) == 0 then And(row, block - 1) else row % block
  }

  lemma PositionIs(row: nat, block: nat)
    requires 0 < block
    ensures Position(row, block) == row % block
  {
    if And(block, block - 1) == 0 {
      var n := SingleBit(block);
      MaskIsModulus(row, n);
    }
  }

  // Coefficients by token and tap.
  datatype Input = Input(x: seq<real>, coefficients: seq<seq<real>>, block: nat, taps: nat)

  predicate Valid(v: Input) {
    && 0 < v.block && 0 < v.taps <= |v.x| + 1 && |v.coefficients| == |v.x|
    && forall i :: 0 <= i < |v.coefficients| ==> |v.coefficients[i]| == v.taps
  }

  // Causal convolution inside one block: token `offset` of the block that begins at `start`.
  function InBlock(v: Input, start: nat, offset: nat, taps: nat): real
    requires Valid(v) && start + offset < |v.x| && taps <= v.taps
  {
    if taps == 0 then 0.0 else
      InBlock(v, start, offset, taps - 1)
      + if taps - 1 <= offset then v.coefficients[start + offset][taps - 1] * v.x[start + (offset - (taps - 1))] else 0.0
  }

  // `blocks[:-tap]`, padded in front with `tap` zeros.
  function Shifted(x: seq<real>, tap: nat): (s: seq<real>)
    requires tap <= |x|
    ensures |s| == |x|
  {
    seq(tap, _ => 0.0) + x[..|x| - tap]
  }

  // What a token is owed after some of the taps.
  function Owed(v: Input, row: nat, taps: nat): real
    requires Valid(v) && row < |v.x| && taps <= v.taps
  {
    InBlock(v, row - row % v.block, row % v.block, taps)
  }

  // What one tap of the flat pass adds.
  function Gain(v: Input, row: nat, tap: nat, shifted: seq<real>, position: nat): real
    requires Valid(v) && row < |v.x| == |shifted| && tap < v.taps
  {
    (v.coefficients[row][tap] * shifted[row]) * (if position >= tap then 1.0 else 0.0)
  }

  /** `_grouped_conv`: the flat pass gives every token the causal convolution of its own block, and
      reads nothing from any other block. */
  method Convolve(v: Input) returns (output: array<real>)
    requires Valid(v)
    ensures output.Length == |v.x|
    ensures forall row :: 0 <= row < |v.x| ==> output[row] == Owed(v, row, v.taps)
  {
    hide Owed, Gain, Position;
    var n := |v.x|;
    output := new real[n];
    for row := 0 to n
      invariant forall i :: 0 <= i < row ==> output[i] == Owed(v, i, 1)
    {
      FirstTap(v, row);
      output[row] := v.coefficients[row][0] * v.x[row];
    }
    for tap := 1 to v.taps
      invariant forall i :: 0 <= i < n ==> output[i] == Owed(v, i, tap)
    {
      var shifted := Shifted(v.x, tap);
      for row := 0 to n
        invariant forall i :: 0 <= i < n ==> output[i] == Owed(v, i, if i < row then tap + 1 else tap)
      {
        NextTap(v, row, tap);
        output[row] := output[row] + Gain(v, row, tap, shifted, Position(row, v.block));
      }
    }
  }

  lemma FirstTap(v: Input, row: nat)
    requires Valid(v) && row < |v.x|
    ensures Owed(v, row, 1) == v.coefficients[row][0] * v.x[row]
  {
    assert InBlock(v, row - row % v.block, row % v.block, 0) == 0.0;
  }

  lemma NextTap(v: Input, row: nat, tap: nat)
    requires Valid(v) && row < |v.x| && 0 < tap < v.taps
    ensures Owed(v, row, tap + 1) == Owed(v, row, tap) + Gain(v, row, tap, Shifted(v.x, tap), Position(row, v.block))
  {
    hide Position, InBlock, Gain, Shifted;
    PositionIs(row, v.block);
    var offset := row % v.block;
    var start: nat := row - offset;
    TapInBlock(v, start, offset, tap);
    assert start + offset == row;
  }

  lemma TapInBlock(v: Input, start: nat, offset: nat, tap: nat)
    requires Valid(v) && start + offset < |v.x| && 0 < tap < v.taps
    ensures InBlock(v, start, offset, tap + 1) ==
      InBlock(v, start, offset, tap) + Gain(v, start + offset, tap, Shifted(v.x, tap), offset)
  {
    if tap <= offset {
      assert Shifted(v.x, tap)[start + offset] == v.x[start + (offset - tap)];
    }
  }
}
