/** The layout of a saved weight file, as the sequence of numbers it holds: a header
    [L, n_0, ..., n_{L-1}] and then every weight, layer by layer, neuron by neuron, slot by
    slot. Layer 0 has no weights, so the weights start with layer 1. */
module WeightLayout {
  import opened NetworkModel

  datatype Option<T> = None | Some(value: T)

  /** A network read back from a weight file: its layer sizes and its weights. */
  datatype Layout = Layout(npl: seq<nat>, w: seq<Matrix>)

  // ---------------------------------------------------------------------------
  // Writing

  /** The rows of ss one after the other, first row first. */
  function Concat(ss: seq<seq<real>>): seq<real>
  {
    if ss == [] then [] else Concat(ss[..|ss| - 1]) + ss[|ss| - 1]
  }

  /** Each layer's weights as one run: neuron 0's vector, then neuron 1's, and so on. */
  function LayerRuns(ws: seq<Matrix>): (r: seq<seq<real>>)
    ensures |r| == |ws|
  {
    seq(|ws|, h requires 0 <= h < |ws| => Concat(ws[h]))
  }

  /** The weights in file order: nothing for no layers, and the last layer's weights last. */
  function Flatten(ws: seq<Matrix>): (r: seq<real>)
    ensures ws == [] ==> r == []
    ensures ws != [] ==> |Concat(ws[|ws| - 1])| <= |r| && r[|r| - |Concat(ws[|ws| - 1])|..] == Concat(ws[|ws| - 1])
  {
    var runs := LayerRuns(ws);
    assert ws != [] ==> Concat(runs) == Concat(runs[..|runs| - 1]) + Concat(ws[|ws| - 1]);
    Concat(runs)
  }

  /** The first line of the file: the number of layers, then the size of each. */
  function Header(npl: seq<nat>): (r: seq<real>)
    ensures |r| == |npl| + 1
  {
    [|npl| as real] + seq(|npl|, i requires 0 <= i < |npl| => npl[i] as real)
  }

  /** saveWeights: the header followed by the weights. The file begins with a header that
      reads back as the layer sizes. */
  function Save(npl: seq<nat>, ws: seq<Matrix>): (r: seq<real>)
    ensures |r| == |npl| + 1 + |Flatten(ws)|
    ensures ReadHeader(r) == Some(npl)
  {
    ReadHeaderSave(npl, Flatten(ws));
    Header(npl) + Flatten(ws)
  }

  // ---------------------------------------------------------------------------
  // Positions

  /** Where the weights of layer h start: the sizes of layers 0 .. h-1 added up. */
  function LayerStart(npl: seq<nat>, h: nat): nat
    requires h <= |npl|
  {
    if h == 0 then 0 else LayerStart(npl, h - 1) + Rows(npl, h - 1) * Slots(npl, h - 1)
  }

  /** The number of weights in the file: the sum over h >= 1 of n_h * (n_{h-1} + 1). */
  function WeightCount(npl: seq<nat>): nat
  {
    LayerStart(npl, |npl|)
  }

  /** Where slot k of neuron j of layer h sits among the weights. */
  function Offset(npl: seq<nat>, h: nat, j: nat, k: nat): nat
    requires h < |npl|
  {
    LayerStart(npl, h) + j * Slots(npl, h) + k
  }

  /** WeightCount adds n_h * (n_{h-1} + 1) for every layer h after the first. */
  lemma WeightCountFormula(npl: seq<nat>)
    ensures |npl| <= 1 ==> WeightCount(npl) == 0
    ensures |npl| >= 2 ==>
      WeightCount(npl) == WeightCount(npl[..|npl| - 1]) + npl[|npl| - 1] * (npl[|npl| - 2] + 1)
  {
    if |npl| >= 1 {
      LayerStartPrefix(npl, |npl| - 1, |npl| - 1);
    }
  }

  /** LayerStart only looks at the layers before h. */
  lemma {:induction false} LayerStartPrefix(npl: seq<nat>, p: nat, h: nat)
    requires h <= p <= |npl|
    ensures LayerStart(npl[..p], h) == LayerStart(npl, h)
  {
    if h > 0 {
      LayerStartPrefix(npl, p, h - 1);
      assert Rows(npl[..p], h - 1) == Rows(npl, h - 1) && Slots(npl[..p], h - 1) == Slots(npl, h - 1);
    }
  }

  lemma {:induction false} LayerStartMonotone(npl: seq<nat>, h: nat, h': nat)
    requires h <= h' <= |npl|
    ensures LayerStart(npl, h) <= LayerStart(npl, h')
  {
    if h < h' {
      LayerStartMonotone(npl, h, h' - 1);
    }
  }

  /** Slot k of row j of an r-by-c block lies inside the block. */
  lemma RowOffsetBound(j: nat, k: nat, r: nat, c: nat)
    requires j < r && k < c
    ensures j * c + k < r * c
    ensures j * c + c <= r * c
  {
    calc {
      j * c + c;
      (j + 1) * c;
    <= { assert j + 1 <= r; }
      r * c;
    }
  }

  /** Every offset of a weight lies before the end of the weights. */
  lemma OffsetBound(npl: seq<nat>, h: nat, j: nat, k: nat)
    requires h < |npl| && j < Rows(npl, h) && k < Slots(npl, h)
    ensures Offset(npl, h, j, k) < LayerStart(npl, h + 1) <= WeightCount(npl)
  {
    RowOffsetBound(j, k, Rows(npl, h), Slots(npl, h));
    LayerStartMonotone(npl, h + 1, |npl|);
  }

  // ---------------------------------------------------------------------------
  // Reading

  /** The natural number a header entry denotes, if it denotes one. */
  function NatOf(r: real): Option<nat>
  {
    if 0.0 <= r && r.Floor as real == r then Some(r.Floor) else None
  }

  /** The layer sizes from the start of a file: the count L, then L natural numbers. */
  function ReadHeader(tokens: seq<real>): (r: Option<seq<nat>>)
    ensures r.Some? ==> |tokens| >= |r.value| + 1
  {
    if |tokens| == 0 then None
    else match NatOf(tokens[0])
      case None => None
      case Some(l) =>
        if |tokens| < l + 1 then None
        else if forall i :: 1 <= i <= l ==> NatOf(tokens[i]).Some?
        then Some(seq(l, i requires 0 <= i < l => NatOf(tokens[i + 1]).value))
        else None
  }

  /** Weight k of neuron j of layer h, taken from the weight part s of a file. */
  function Entry(npl: seq<nat>, s: seq<real>, h: nat, j: nat, k: nat): real
    requires |s| >= WeightCount(npl)
    requires h < |npl| && j < Rows(npl, h) && k < Slots(npl, h)
  {
    OffsetBound(npl, h, j, k);
    s[Offset(npl, h, j, k)]
  }

  /** The weights of a network of layer sizes npl, read in file order from s. */
  function Unflatten(npl: seq<nat>, s: seq<real>): (ws: seq<Matrix>)
    requires |s| >= WeightCount(npl)
    ensures WeightsShaped(npl, ws)
  {
    seq(|npl|, h requires 0 <= h < |npl| =>
      seq(Rows(npl, h), j requires 0 <= j < Rows(npl, h) =>
        seq(Slots(npl, h), k requires 0 <= k < Slots(npl, h) => Entry(npl, s, h, j, k))))
  }

  /** readWeights: the header, then as many weights as the header calls for. A header entry
      that is not a natural number, or a file that ends early, is an error. */
  function Read(tokens: seq<real>): (r: Option<Layout>)
    ensures r.Some? ==> ReadHeader(tokens) == Some(r.value.npl)
    ensures r.Some? ==> WeightsShaped(r.value.npl, r.value.w)
    ensures r.Some? ==> |tokens| >= |r.value.npl| + 1 + WeightCount(r.value.npl)
  {
    match ReadHeader(tokens)
      case None => None
      case Some(npl) =>
        var s := tokens[|npl| + 1..];
        if |s| < WeightCount(npl) then None else Some(Layout(npl, Unflatten(npl, s)))
  }

  // ---------------------------------------------------------------------------
  // Properties of Concat

  lemma ConcatSnoc(ss: seq<seq<real>>, p: nat)
    requires p < |ss|
    ensures Concat(ss[..p + 1]) == Concat(ss[..p]) + ss[p]
  {
    assert ss[..p + 1][..p] == ss[..p];
  }

  /** Rows all of length c concatenate to |ss| * c values. */
  lemma {:induction false} ConcatUniform(ss: seq<seq<real>>, c: nat)
    requires forall p :: 0 <= p < |ss| ==> |ss[p]| == c
    ensures |Concat(ss)| == |ss| * c
  {
    if ss != [] {
      var init := ss[..|ss| - 1];
      assert forall p :: 0 <= p < |init| ==> |init[p]| == c by {
        forall p | 0 <= p < |init| ensures |init[p]| == c {
          assert init[p] == ss[p];
        }
      }
      ConcatUniform(init, c);
      calc {
        |Concat(ss)|;
        |Concat(init)| + c;
        (|ss| - 1) * c + c;
        |ss| * c;
      }
    }
  }

  /** The concatenation of the first p rows is a prefix of the whole concatenation. */
  lemma {:induction false} ConcatPrefix(ss: seq<seq<real>>, p: nat)
    requires p <= |ss|
    ensures Concat(ss[..p]) <= Concat(ss)
  {
    if p < |ss| {
      var init := ss[..|ss| - 1];
      assert init[..p] == ss[..p];
      ConcatPrefix(init, p);
      assert Concat(ss) == Concat(init) + ss[|ss| - 1];
    } else {
      assert ss[..p] == ss;
    }
  }

  /** Value k of row p sits right after the rows before p. */
  lemma ConcatIndex(ss: seq<seq<real>>, p: nat, k: nat)
    requires p < |ss| && k < |ss[p]|
    ensures |Concat(ss[..p])| + k < |Concat(ss)|
    ensures Concat(ss)[|Concat(ss[..p])| + k] == ss[p][k]
  {
    ConcatSnoc(ss, p);
    ConcatPrefix(ss, p + 1);
  }

  // ---------------------------------------------------------------------------
  // Properties of the layout

  /** The weights of a layer form Rows * Slots values. */
  lemma LayerRunLength(npl: seq<nat>, ws: seq<Matrix>, h: nat)
    requires WeightsShaped(npl, ws) && h < |npl|
    ensures |LayerRuns(ws)[h]| == Rows(npl, h) * Slots(npl, h)
  {
    ConcatUniform(ws[h], Slots(npl, h));
  }

  /** The layers before h take up LayerStart(npl, h) values. */
  lemma {:induction false} LayerStartLength(npl: seq<nat>, ws: seq<Matrix>, h: nat)
    requires WeightsShaped(npl, ws) && h <= |npl|
    ensures |Concat(LayerRuns(ws)[..h])| == LayerStart(npl, h)
  {
    if h > 0 {
      LayerStartLength(npl, ws, h - 1);
      ConcatSnoc(LayerRuns(ws), h - 1);
      LayerRunLength(npl, ws, h - 1);
    }
  }

  /** A network with layer sizes npl has WeightCount(npl) weights. */
  lemma FlattenLength(npl: seq<nat>, ws: seq<Matrix>)
    requires WeightsShaped(npl, ws)
    ensures |Flatten(ws)| == WeightCount(npl)
  {
    LayerStartLength(npl, ws, |npl|);
    assert LayerRuns(ws)[..|npl|] == LayerRuns(ws);
  }

  /** Weight k of neuron j of layer h is written at its offset. */
  lemma FlattenIndex(npl: seq<nat>, ws: seq<Matrix>, h: nat, j: nat, k: nat)
    requires WeightsShaped(npl, ws) && h < |npl| && j < Rows(npl, h) && k < Slots(npl, h)
    ensures Offset(npl, h, j, k) < |Flatten(ws)|
    ensures Flatten(ws)[Offset(npl, h, j, k)] == ws[h][j][k]
  {
    var runs := LayerRuns(ws);
    var q := j * Slots(npl, h) + k;
    ConcatUniform(ws[h][..j], Slots(npl, h));
    ConcatIndex(ws[h], j, k);
    assert runs[h][q] == ws[h][j][k];
    LayerRunLength(npl, ws, h);
    RowOffsetBound(j, k, Rows(npl, h), Slots(npl, h));
    LayerStartLength(npl, ws, h);
    ConcatIndex(runs, h, q);
  }

  /** Unflatten undoes Flatten, whatever follows the weights. */
  lemma UnflattenFlatten(npl: seq<nat>, ws: seq<Matrix>, extra: seq<real>)
    requires WeightsShaped(npl, ws)
    ensures |Flatten(ws) + extra| >= WeightCount(npl)
    ensures Unflatten(npl, Flatten(ws) + extra) == ws
  {
    FlattenLength(npl, ws);
    var s := Flatten(ws) + extra;
    var u := Unflatten(npl, s);
    forall h | 0 <= h < |npl| ensures u[h] == ws[h] {
      forall j | 0 <= j < Rows(npl, h) ensures u[h][j] == ws[h][j] {
        forall k | 0 <= k < Slots(npl, h) ensures u[h][j][k] == ws[h][j][k] {
          FlattenIndex(npl, ws, h, j, k);
        }
      }
    }
  }

  /** Neuron j of layer h of Unflatten(npl, s) is the stretch of s at its offsets. */
  lemma UnflattenRow(npl: seq<nat>, s: seq<real>, h: nat, j: nat)
    requires |s| >= WeightCount(npl) && h < |npl| && j < Rows(npl, h)
    ensures Offset(npl, h, j, 0) + Slots(npl, h) <= |s|
    ensures Unflatten(npl, s)[h][j] == s[Offset(npl, h, j, 0)..Offset(npl, h, j, 0) + Slots(npl, h)]
  {
    var c := Slots(npl, h);
    var lo := Offset(npl, h, j, 0);
    if c > 0 {
      OffsetBound(npl, h, j, c - 1);
      assert Offset(npl, h, j, c - 1) == lo + c - 1;
    } else {
      LayerStartMonotone(npl, h, |npl|);
    }
    var row := Unflatten(npl, s)[h][j];
    forall k | 0 <= k < c ensures row[k] == s[lo + k] {
      assert row[k] == Entry(npl, s, h, j, k);
      assert Offset(npl, h, j, k) == lo + k;
    }
  }

  /** The row after row j starts where row j ends. */
  lemma OffsetNextRow(npl: seq<nat>, h: nat, j: nat)
    requires h < |npl|
    ensures Offset(npl, h, j, 0) + Slots(npl, h) == Offset(npl, h, j + 1, 0)
  {
    var c := Slots(npl, h);
    assert (j + 1) * c == j * c + c;
  }

  /** Two adjacent slices of s make up the slice that spans both. */
  lemma SliceJoin(s: seq<real>, a: nat, b: nat, c: nat)
    requires a <= b <= c <= |s|
    ensures s[a..b] + s[b..c] == s[a..c]
  {
  }

  /** The rows of layer h end where layer h + 1 starts. */
  lemma LayerEnd(npl: seq<nat>, h: nat)
    requires h < |npl|
    ensures Offset(npl, h, Rows(npl, h), 0) == LayerStart(npl, h + 1)
  {
  }

  /** The first j rows of layer h of Unflatten(npl, s) are the stretch of s they were read from. */
  lemma {:induction false} UnflattenRows(npl: seq<nat>, s: seq<real>, h: nat, j: nat)
    requires |s| >= WeightCount(npl) && h < |npl| && j <= Rows(npl, h)
    ensures LayerStart(npl, h) <= Offset(npl, h, j, 0) <= |s|
    ensures Concat(Unflatten(npl, s)[h][..j]) == s[LayerStart(npl, h)..Offset(npl, h, j, 0)]
  {
    var m := Unflatten(npl, s)[h];
    var start := LayerStart(npl, h);
    if j == 0 {
      LayerStartMonotone(npl, h, |npl|);
      assert m[..0] == [];
    } else {
      UnflattenRows(npl, s, h, j - 1);
      ConcatSnoc(m, j - 1);
      UnflattenRow(npl, s, h, j - 1);
      OffsetNextRow(npl, h, j - 1);
      var lo, hi := Offset(npl, h, j - 1, 0), Offset(npl, h, j, 0);
      SliceJoin(s, start, lo, hi);
    }
  }

  /** The first h layers of Unflatten(npl, s) are the stretch of s they were read from. */
  lemma {:induction false} UnflattenLayers(npl: seq<nat>, s: seq<real>, h: nat)
    requires |s| >= WeightCount(npl) && h <= |npl|
    ensures LayerStart(npl, h) <= |s|
    ensures Concat(LayerRuns(Unflatten(npl, s))[..h]) == s[..LayerStart(npl, h)]
  {
    LayerStartMonotone(npl, h, |npl|);
    if h > 0 {
      var u := Unflatten(npl, s);
      UnflattenLayers(npl, s, h - 1);
      ConcatSnoc(LayerRuns(u), h - 1);
      UnflattenRows(npl, s, h - 1, Rows(npl, h - 1));
      LayerEnd(npl, h - 1);
      assert u[h - 1][..Rows(npl, h - 1)] == u[h - 1];
      var lo, hi := LayerStart(npl, h - 1), LayerStart(npl, h);
      SliceJoin(s, 0, lo, hi);
      assert s[..lo] == s[0..lo] && s[..hi] == s[0..hi];
    }
  }

  /** Flatten undoes Unflatten: the weights read are exactly the first WeightCount values. */
  lemma FlattenUnflatten(npl: seq<nat>, s: seq<real>)
    requires |s| >= WeightCount(npl)
    ensures Flatten(Unflatten(npl, s)) == s[..WeightCount(npl)]
  {
    UnflattenLayers(npl, s, |npl|);
    assert LayerRuns(Unflatten(npl, s))[..|npl|] == LayerRuns(Unflatten(npl, s));
  }

  lemma NatOfNat(n: nat)
    ensures NatOf(n as real) == Some(n)
  {
  }

  /** The header of a network reads back as its layer sizes. */
  lemma ReadHeaderSave(npl: seq<nat>, rest: seq<real>)
    ensures ReadHeader(Header(npl) + rest) == Some(npl)
  {
    var t := Header(npl) + rest;
    NatOfNat(|npl|);
    assert t[0] == |npl| as real;
    forall i | 1 <= i <= |npl| ensures NatOf(t[i]) == Some(npl[i - 1]) {
      assert t[i] == npl[i - 1] as real;
      NatOfNat(npl[i - 1]);
    }
    var read := seq(|npl|, i requires 0 <= i < |npl| => NatOf(t[i + 1]).value);
    assert read == npl;
  }

  /** Reading a saved network gives back its layer sizes and weights, whatever follows them. */
  lemma ReadSave(npl: seq<nat>, ws: seq<Matrix>, extra: seq<real>)
    requires WeightsShaped(npl, ws)
    ensures Read(Save(npl, ws) + extra) == Some(Layout(npl, ws))
  {
    var t := Save(npl, ws) + extra;
    assert t == Header(npl) + (Flatten(ws) + extra);
    ReadHeaderSave(npl, Flatten(ws) + extra);
    assert t[|npl| + 1..] == Flatten(ws) + extra;
    UnflattenFlatten(npl, ws, extra);
  }

  /** A header that reads successfully is the header of the layer sizes it reads as. */
  lemma HeaderReadHeader(tokens: seq<real>)
    requires ReadHeader(tokens).Some?
    ensures Header(ReadHeader(tokens).value) == tokens[..|ReadHeader(tokens).value| + 1]
  {
    var npl := ReadHeader(tokens).value;
    forall i | 1 <= i <= |npl| ensures Header(npl)[i] == tokens[i] {
      assert Header(npl)[i] == npl[i - 1] as real;
    }
  }

  /** Whatever reads successfully is a saved network followed by values that are ignored:
      the header's layer sizes, a shaped set of weights, and nothing invented. */
  lemma ReadSpec(tokens: seq<real>)
    requires Read(tokens).Some?
    ensures var n := Read(tokens).value;
      WeightsShaped(n.npl, n.w) && Save(n.npl, n.w) <= tokens
  {
    var npl := ReadHeader(tokens).value;
    var s := tokens[|npl| + 1..];
    var ws := Unflatten(npl, s);
    assert Read(tokens).value == Layout(npl, ws);
    var m, count := |npl| + 1, WeightCount(npl);
    FlattenUnflatten(npl, s);
    HeaderReadHeader(tokens);
    assert s[..count] == tokens[m..m + count];
    SliceJoin(tokens, 0, m, m + count);
    assert Save(npl, ws) == tokens[..m + count];
  }
}
