/**
  The image-batch embedding wrapper around a pretrained vision transformer.
  A batch [B, C, H, W] must have three channels; each channel is normalised
  with fixed means and standard deviations; placeholder metadata is built;
  the encoder (a parameter: its internals are not part of this model) maps
  the normalised batch to B rows of N tokens of width D; the final token of
  each row is dropped, the rest is laid out on a side x side grid with
  side = W / patch_size / 2, and each image's embedding is the mean over
  that grid.

  Pixel values and encoder outputs are real numbers; floating-point rounding
  is not modelled.
 */
module ClayWrapper {

  import opened Remote

  const Means: seq<real> := [53.33853489, 44.41999383, 35.96075039]
  const Stds: seq<real> := [50.44633167, 43.54469652, 44.63162242]
  const Gsd: real := 10.0
  const Waves: seq<real> := [1552.0, 1355.0, 1105.0]
  const MetadataWidth: nat := 4

  type Pixels = seq<seq<seq<seq<real>>>>

  /** Every image has `channels` channels of `height` rows of `width` values. */
  predicate IsShaped(px: Pixels, channels: nat, height: nat, width: nat)
  {
    forall n :: 0 <= n < |px| ==>
      |px[n]| == channels &&
      forall c :: 0 <= c < channels ==>
        |px[n][c]| == height &&
        forall i :: 0 <= i < height ==> |px[n][c][i]| == width
  }

  /** An array of shape [count, channels, height, width]; the shape is known even when count is 0. */
  datatype ImageBatch = ImageBatch(channels: nat, height: nat, width: nat, pixels: Pixels)

  type Batch = b: ImageBatch | IsShaped(b.pixels, b.channels, b.height, b.width)
    witness ImageBatch(0, 0, 0, [])

  /** Every row of the plane has `width` values. */
  predicate IsPlane(plane: seq<seq<real>>, height: nat, width: nat)
  {
    |plane| == height && forall i :: 0 <= i < height ==> |plane[i]| == width
  }

  /** One channel of one image, shifted by the channel's mean and scaled by its deviation. */
  function NormalizePlane(plane: seq<seq<real>>, height: nat, width: nat, c: nat): (r: seq<seq<real>>)
    requires c < 3 && IsPlane(plane, height, width)
    ensures IsPlane(r, height, width)
    ensures forall i, j :: 0 <= i < height && 0 <= j < width ==> r[i][j] == (plane[i][j] - Means[c]) / Stds[c]
  {
    seq(height, i requires 0 <= i < height =>
      seq(width, j requires 0 <= j < width => (plane[i][j] - Means[c]) / Stds[c]))
  }

  /** Per-channel normalisation with the fixed constants; the shape is kept. */
  function Normalize(b: Batch): (r: Batch)
    requires b.channels == 3
    ensures r.channels == 3 && r.height == b.height && r.width == b.width && |r.pixels| == |b.pixels|
    ensures forall n, c, i, j :: 0 <= n < |b.pixels| && 0 <= c < 3 && 0 <= i < b.height && 0 <= j < b.width ==>
              r.pixels[n][c][i][j] == (b.pixels[n][c][i][j] - Means[c]) / Stds[c]
  {
    var px := b.pixels;
    ImageBatch(3, b.height, b.width,
      seq(|px|, n requires 0 <= n < |px| =>
        seq(3, c requires 0 <= c < 3 => NormalizePlane(px[n][c], b.height, b.width, c))))
  }

  /** One channel of one image, scaled back by its deviation and shifted back by its mean. */
  function DenormalizePlane(plane: seq<seq<real>>, height: nat, width: nat, c: nat): (r: seq<seq<real>>)
    requires c < 3 && IsPlane(plane, height, width)
    ensures IsPlane(r, height, width)
    ensures forall i, j :: 0 <= i < height && 0 <= j < width ==> r[i][j] == plane[i][j] * Stds[c] + Means[c]
  {
    seq(height, i requires 0 <= i < height =>
      seq(width, j requires 0 <= j < width => plane[i][j] * Stds[c] + Means[c]))
  }

  /** The inverse of the normalisation, to show that it loses nothing. */
  function Denormalize(b: Batch): (r: Batch)
    requires b.channels == 3
    ensures r.channels == 3 && r.height == b.height && r.width == b.width && |r.pixels| == |b.pixels|
    ensures forall n, c, i, j :: 0 <= n < |b.pixels| && 0 <= c < 3 && 0 <= i < b.height && 0 <= j < b.width ==>
              r.pixels[n][c][i][j] == b.pixels[n][c][i][j] * Stds[c] + Means[c]
  {
    var px := b.pixels;
    ImageBatch(3, b.height, b.width,
      seq(|px|, n requires 0 <= n < |px| =>
        seq(3, c requires 0 <= c < 3 => DenormalizePlane(px[n][c], b.height, b.width, c))))
  }

  lemma NormalizeRoundTrip(b: Batch)
    requires b.channels == 3
    ensures Denormalize(Normalize(b)) == b
  {
    var r := Denormalize(Normalize(b));
    forall n | 0 <= n < |b.pixels| ensures r.pixels[n] == b.pixels[n] {
      forall c | 0 <= c < 3 ensures r.pixels[n][c] == b.pixels[n][c] {
        forall i | 0 <= i < b.height ensures r.pixels[n][c][i] == b.pixels[n][c][i] {
          forall j | 0 <= j < b.width ensures r.pixels[n][c][i][j] == b.pixels[n][c][i][j] {
            var x := b.pixels[n][c][i][j];
            assert Stds[c] != 0.0;
            assert (x - Means[c]) / Stds[c] * Stds[c] == x - Means[c];
          }
        }
      }
    }
  }

  /** A pixel equal to its channel's mean normalises to zero. */
  lemma NormalizedMeanIsZero(b: Batch, n: nat, c: nat, i: nat, j: nat)
    requires b.channels == 3 && n < |b.pixels| && c < 3 && i < b.height && j < b.width
    requires b.pixels[n][c][i][j] == Means[c]
    ensures Normalize(b).pixels[n][c][i][j] == 0.0
  {
  }

  datatype Metadata = Metadata(time: seq<seq<real>>, latlon: seq<seq<real>>, gsd: real, waves: seq<real>)

  function Zeros(rows: nat, cols: nat): (z: seq<seq<real>>)
    ensures |z| == rows && forall k :: 0 <= k < rows ==> z[k] == seq(cols, _ => 0.0)
  {
    seq(rows, _ => seq(cols, _ => 0.0))
  }

  /** The metadata the encoder expects, the same for every batch of `count` images. */
  function PlaceholderMetadata(count: nat): (m: Metadata)
    ensures |m.time| == count && |m.latlon| == count
    ensures forall k, l :: 0 <= k < count && 0 <= l < MetadataWidth ==>
              |m.time[k]| == |m.latlon[k]| == MetadataWidth && m.time[k][l] == 0.0 && m.latlon[k][l] == 0.0
    ensures m.gsd == 10.0 && m.waves == [1552.0, 1355.0, 1105.0]
  {
    Metadata(Zeros(count, MetadataWidth), Zeros(count, MetadataWidth), Gsd, Waves)
  }

  datatype EncoderInput = EncoderInput(pixels: Batch, metadata: Metadata)

  /** The encoder's output: one row per image, each of `tokens` vectors of `width` values. */
  datatype TokenTensor = TokenTensor(tokens: nat, width: nat, data: seq<seq<seq<real>>>)

  predicate IsRectangular(t: TokenTensor)
  {
    forall n :: 0 <= n < |t.data| ==>
      |t.data[n]| == t.tokens && forall k :: 0 <= k < t.tokens ==> |t.data[n][k]| == t.width
  }

  type Tokens = t: TokenTensor | IsRectangular(t) witness TokenTensor(0, 0, [])

  datatype ClayError =
    | ChannelMismatch(found: nat)           // the ValueError naming the channel count
    | ZeroPatchSize                         // the integer division by a patch size of 0
    | GridMismatch(patches: nat, side: nat) // the reshape of a token count that is not side * side
    | EmptyGridMean                         // the mean over an empty grid, which yields NaN

  function GridSide(imageSize: nat, patchSize: nat): nat
    requires patchSize > 0
  {
    imageSize / patchSize / 2
  }

  /** A row without its final token; an empty row stays empty, as a [:-1] slice does. */
  function DropLast(row: seq<seq<real>>): (r: seq<seq<real>>)
    ensures |r| == if row == [] then 0 else |row| - 1
    ensures forall k :: 0 <= k < |r| ==> r[k] == row[k]
  {
    if row == [] then [] else row[..|row| - 1]
  }

  /** Past the head, a consed sequence is its tail shifted by one. */
  lemma ConsIndex<T>(x: T, rest: seq<T>)
    ensures forall h :: 0 < h <= |rest| ==> ([x] + rest)[h] == rest[h - 1]
  {
  }

  /** count consecutive rows of side vectors each, in order (a row-major reshape). */
  function Chunks(xs: seq<seq<real>>, side: nat, count: nat): (rows: seq<seq<seq<real>>>)
    requires |xs| == count * side
    ensures |rows| == count
    ensures forall h :: 0 <= h < count ==> |rows[h]| == side && forall v :: v in rows[h] ==> v in xs
    decreases count
  {
    if count == 0 then []
    else
      assert |xs[side..]| == (count - 1) * side;
      var rest := Chunks(xs[side..], side, count - 1);
      ConsIndex(xs[..side], rest);
      [xs[..side]] + rest
  }

  /** Offset h * side + w of a cell lies inside count rows of side vectors. */
  lemma CellOffsetInRange(side: nat, count: nat, h: nat, w: nat)
    requires h < count && w < side
    ensures h * side + w < count * side
  {
    assert (h + 1) * side == h * side + side;
    assert (h + 1) * side <= count * side;
  }

  /** The offset of row h starts one row of side vectors after the offset of row h - 1. */
  lemma NextRowOffset(side: nat, h: nat)
    requires h > 0
    ensures side + (h - 1) * side == h * side
  {
    assert h * side == (h - 1) * side + side;
  }

  /** Cell (h, w) of the chunked rows is vector h * side + w. */
  lemma {:induction false} ChunksCell(xs: seq<seq<real>>, side: nat, count: nat, h: nat, w: nat)
    requires |xs| == count * side && h < count && w < side
    ensures h * side + w < |xs|
    ensures Chunks(xs, side, count)[h][w] == xs[h * side + w]
    decreases count
  {
    CellOffsetInRange(side, count, h, w);
    if h > 0 {
      var tail := xs[side..];
      assert |tail| == (count - 1) * side;
      ConsIndex(xs[..side], Chunks(tail, side, count - 1));
      assert Chunks(xs, side, count)[h] == Chunks(tail, side, count - 1)[h - 1];
      ChunksCell(tail, side, count - 1, h - 1, w);
      NextRowOffset(side, h);
      assert tail[(h - 1) * side + w] == xs[h * side + w];
    }
  }

  /** The rearrangement "(h w) d -> h w d" onto a side x side grid. */
  function Grid(patches: seq<seq<real>>, side: nat): (g: seq<seq<seq<real>>>)
    requires |patches| == side * side
    ensures |g| == side && forall h :: 0 <= h < side ==> |g[h]| == side
  {
    Chunks(patches, side, side)
  }

  /** Token h * side + w lands in cell (h, w), for every cell of the grid. */
  lemma GridCell(patches: seq<seq<real>>, side: nat, h: nat, w: nat)
    requires |patches| == side * side && h < side && w < side
    ensures h * side + w < |patches|
    ensures Grid(patches, side)[h][w] == patches[h * side + w]
  {
    ChunksCell(patches, side, side, h, w);
  }

  function Sum(xs: seq<real>): real
  {
    if xs == [] then 0.0 else xs[0] + Sum(xs[1..])
  }

  lemma {:induction false} SumConcat(a: seq<real>, b: seq<real>)
    ensures Sum(a + b) == Sum(a) + Sum(b)
  {
    if a == [] {
      assert a + b == b;
    } else {
      assert (a + b)[1..] == a[1..] + b;
      SumConcat(a[1..], b);
    }
  }

  /** The d-th coordinates of a list of vectors. */
  function Column(vs: seq<seq<real>>, d: nat): (col: seq<real>)
    requires forall k :: 0 <= k < |vs| ==> d < |vs[k]|
    ensures |col| == |vs| && forall k :: 0 <= k < |vs| ==> col[k] == vs[k][d]
  {
    seq(|vs|, k requires 0 <= k < |vs| => vs[k][d])
  }

  /** Every vector has exactly width coordinates. */
  predicate AllWidth(vs: seq<seq<real>>, width: nat)
  {
    forall k :: 0 <= k < |vs| ==> |vs[k]| == width
  }

  /** Every cell of a grid is a vector of exactly width coordinates. */
  predicate CellsOfWidth(g: seq<seq<seq<real>>>, width: nat)
  {
    forall h :: 0 <= h < |g| ==> AllWidth(g[h], width)
  }

  /** The sum of coordinate d over every cell of a grid: over rows of the sums over columns. */
  function GridSum(g: seq<seq<seq<real>>>, d: nat, width: nat): real
    requires d < width && CellsOfWidth(g, width)
  {
    Sum(seq(|g|, h requires 0 <= h < |g| => Sum(Column(g[h], d))))
  }

  /** The reduction "h w d -> d" by mean. */
  function MeanPool(g: seq<seq<seq<real>>>, side: nat, width: nat): (v: seq<real>)
    requires side > 0 && CellsOfWidth(g, width)
    ensures |v| == width
    ensures forall d :: 0 <= d < width ==> v[d] * (side * side) as real == GridSum(g, d, width)
  {
    seq(width, d requires 0 <= d < width => GridSum(g, d, width) / (side * side) as real)
  }

  /** The rows of a grid of width-wide vectors are width-wide. */
  lemma ChunksWidth(xs: seq<seq<real>>, side: nat, count: nat, width: nat)
    requires |xs| == count * side && AllWidth(xs, width)
    ensures CellsOfWidth(Chunks(xs, side, count), width)
  {
    var rows := Chunks(xs, side, count);
    forall h, w | 0 <= h < count && 0 <= w < |rows[h]| ensures |rows[h][w]| == width {
      assert rows[h][w] in rows[h];
    }
  }

  lemma ColumnConcat(a: seq<seq<real>>, b: seq<seq<real>>, d: nat, width: nat)
    requires AllWidth(a, width) && AllWidth(b, width) && d < width
    ensures AllWidth(a + b, width) && Column(a + b, d) == Column(a, d) + Column(b, d)
  {
  }

  /** The grid sum splits into its first row and the sum over the remaining rows. */
  lemma GridSumCons(row: seq<seq<real>>, rest: seq<seq<seq<real>>>, d: nat, width: nat)
    requires AllWidth(row, width) && CellsOfWidth(rest, width) && d < width
    ensures CellsOfWidth([row] + rest, width)
    ensures GridSum([row] + rest, d, width) == Sum(Column(row, d)) + GridSum(rest, d, width)
  {
    var g := [row] + rest;
    assert forall h :: 0 < h < |g| ==> g[h] == rest[h - 1];
    var s := seq(|g|, h requires 0 <= h < |g| => Sum(Column(g[h], d)));
    assert s[1..] == seq(|rest|, h requires 0 <= h < |rest| => Sum(Column(rest[h], d)));
  }

  /** Summing over the chunked rows is summing over the vectors they were cut from. */
  lemma {:induction false} ChunksSum(xs: seq<seq<real>>, side: nat, count: nat, d: nat, width: nat)
    requires |xs| == count * side && AllWidth(xs, width) && d < width
    ensures CellsOfWidth(Chunks(xs, side, count), width)
            && GridSum(Chunks(xs, side, count), d, width) == Sum(Column(xs, d))
    decreases count
  {
    if count == 0 {
      assert Column(xs, d) == [];
    } else {
      var head, tail := xs[..side], xs[side..];
      assert (count - 1) * side == count * side - side;
      assert |tail| == (count - 1) * side;
      var rest := Chunks(tail, side, count - 1);
      assert Chunks(xs, side, count) == [head] + rest;
      ChunksSum(tail, side, count - 1, d, width);
      GridSumCons(head, rest, d, width);
      ColumnConcat(head, tail, d, width);
      assert xs == head + tail;
      SumConcat(Column(head, d), Column(tail, d));
    }
  }

  /** Summing over the grid is summing over the tokens it was laid out from. */
  lemma GridSumIsTokenSum(patches: seq<seq<real>>, side: nat, d: nat, width: nat)
    requires |patches| == side * side && AllWidth(patches, width) && d < width
    ensures CellsOfWidth(Grid(patches, side), width)
            && GridSum(Grid(patches, side), d, width) == Sum(Column(patches, d))
  {
    ChunksSum(patches, side, side, d, width);
  }

  /** The steps after the encoder: drop the final token, lay the rest on the grid, take the mean. */
  function PoolTokens(raw: Tokens, side: nat): (r: Result<seq<seq<real>>, ClayError>)
    ensures var kept := if raw.tokens == 0 then 0 else raw.tokens - 1;
      && (r.Failure? && r.error.GridMismatch? <==> kept != side * side)
      && (r.Failure? && r.error.GridMismatch? ==> r.error == GridMismatch(kept, side))
      && (r.Failure? && r.error == EmptyGridMean <==> kept == side * side && side == 0 && |raw.data| > 0)
      && (r.Failure? ==> r.error.GridMismatch? || r.error == EmptyGridMean)
  {
    var kept := if raw.tokens == 0 then 0 else raw.tokens - 1;
    if kept != side * side then Failure(GridMismatch(kept, side))
    else if side == 0 && |raw.data| > 0 then Failure(EmptyGridMean)
    else Success(seq(|raw.data|, n requires 0 <= n < |raw.data| =>
      var patches := DropLast(raw.data[n]);
      ChunksWidth(patches, side, side, raw.width);
      MeanPool(Grid(patches, side), side, raw.width)))
  }

  /** What the encoder is given for a three-channel batch. */
  function EncoderInputFor(batch: Batch): (input: EncoderInput)
    requires batch.channels == 3
    ensures var px := input.pixels;
      && px.channels == 3 && px.height == batch.height && px.width == batch.width
      && |px.pixels| == |batch.pixels|
      && forall n, c, i, j :: 0 <= n < |batch.pixels| && 0 <= c < 3 && 0 <= i < batch.height && 0 <= j < batch.width ==>
           px.pixels[n][c][i][j] == (batch.pixels[n][c][i][j] - Means[c]) / Stds[c]
    ensures var m := input.metadata;
      && |m.time| == |batch.pixels| && |m.latlon| == |batch.pixels|
      && (forall k, l :: 0 <= k < |batch.pixels| && 0 <= l < MetadataWidth ==>
            |m.time[k]| == |m.latlon[k]| == MetadataWidth && m.time[k][l] == 0.0 && m.latlon[k][l] == 0.0)
      && m.gsd == 10.0 && m.waves == [1552.0, 1355.0, 1105.0]
  {
    EncoderInput(Normalize(batch), PlaceholderMetadata(|batch.pixels|))
  }

  /** batch_embeddings, with the pretrained encoder and its patch size as parameters. */
  function BatchEmbeddings(batch: Batch, patchSize: nat, encoder: EncoderInput -> Tokens)
    : (r: Result<seq<seq<real>>, ClayError>)
    ensures r.Failure? && r.error.ChannelMismatch? <==> batch.channels != 3
    ensures r.Failure? && r.error.ChannelMismatch? ==> r.error.found == batch.channels
  {
    if batch.channels != 3 then Failure(ChannelMismatch(batch.channels))
    else if patchSize == 0 then Failure(ZeroPatchSize)
    else PoolTokens(encoder(EncoderInputFor(batch)), GridSide(batch.width, patchSize))
  }

  /** A wrong channel count is reported whatever the encoder would do: it is checked before the encoder runs. */
  lemma ChannelCheckFirst(batch: Batch, patchSize: nat, e1: EncoderInput -> Tokens, e2: EncoderInput -> Tokens)
    requires batch.channels != 3
    ensures BatchEmbeddings(batch, patchSize, e1) == BatchEmbeddings(batch, patchSize, e2)
              == Failure(ChannelMismatch(batch.channels))
  {
  }

  /**
    Pooling succeeds exactly when the tokens without the final one fill the
    grid; then there is one row per encoder row, of the encoder's width,
    and coordinate d of row n is the mean of coordinate d over the side * side
    patch tokens of row n, the final token left out.
   */
  lemma PoolTokensIsPatchMean(raw: Tokens, side: nat)
    ensures PoolTokens(raw, side).Success?
        <==> (if raw.tokens == 0 then 0 else raw.tokens - 1) == side * side && (side > 0 || |raw.data| == 0)
    ensures PoolTokens(raw, side).Success? ==>
      var rows := PoolTokens(raw, side).value;
      && |rows| == |raw.data|
      && forall n :: 0 <= n < |rows| ==>
           |rows[n]| == raw.width
           && forall d :: 0 <= d < raw.width ==>
                rows[n][d] == Sum(Column(raw.data[n][..side * side], d)) / (side * side) as real
  {
    if PoolTokens(raw, side).Success? {
      var rows := PoolTokens(raw, side).value;
      forall n, d | 0 <= n < |rows| && 0 <= d < raw.width
        ensures rows[n][d] == Sum(Column(raw.data[n][..side * side], d)) / (side * side) as real
      {
        var patches := DropLast(raw.data[n]);
        assert patches == raw.data[n][..side * side];
        assert AllWidth(patches, raw.width);
        GridSumIsTokenSum(patches, side, d, raw.width);
      }
    }
  }

  /** The final token never influences the result: rows that differ only there pool alike. */
  lemma FinalTokenIgnored(a: Tokens, b: Tokens, side: nat)
    requires a.tokens == b.tokens && a.width == b.width && |a.data| == |b.data|
    requires forall n, k :: 0 <= n < |a.data| && 0 <= k < a.tokens - 1 ==> a.data[n][k] == b.data[n][k]
    ensures PoolTokens(a, side) == PoolTokens(b, side)
  {
    var ra, rb := PoolTokens(a, side), PoolTokens(b, side);
    if ra.Success? {
      forall n | 0 <= n < |a.data| ensures ra.value[n] == rb.value[n] {
        assert DropLast(a.data[n]) == DropLast(b.data[n]);
      }
      assert ra.value == rb.value;
    }
  }

  /** An encoder that keeps the batch size gives one embedding per input image. */
  lemma OneRowPerImage(batch: Batch, patchSize: nat, encoder: EncoderInput -> Tokens)
    requires batch.channels == 3
    requires |encoder(EncoderInputFor(batch)).data| == |batch.pixels|
    requires BatchEmbeddings(batch, patchSize, encoder).Success?
    ensures |BatchEmbeddings(batch, patchSize, encoder).value| == |batch.pixels|
  {
    PoolTokensIsPatchMean(encoder(EncoderInputFor(batch)), GridSide(batch.width, patchSize));
  }

  /**
    Two 16 x 16 images with patch size 8 give a 1 x 1 grid: an encoder that
    answers with two tokens per image (one patch and the final aggregate
    token) yields two rows, each the image's patch token itself.
   */
  lemma SixteenPixelPair(batch: Batch, encoder: EncoderInput -> Tokens)
    requires batch.channels == 3 && batch.width == 16 && |batch.pixels| == 2
    requires var raw := encoder(EncoderInputFor(batch)); raw.tokens == 2 && |raw.data| == 2
    ensures var raw := encoder(EncoderInputFor(batch));
            var r := BatchEmbeddings(batch, 8, encoder);
      && r.Success? && |r.value| == 2
      && forall n :: 0 <= n < 2 ==> r.value[n] == raw.data[n][0]
  {
    var raw := encoder(EncoderInputFor(batch));
    assert GridSide(16, 8) == 1;
    PoolTokensIsPatchMean(raw, 1);
    var rows := PoolTokens(raw, 1).value;
    forall n | 0 <= n < 2 ensures rows[n] == raw.data[n][0] {
      forall d | 0 <= d < raw.width ensures rows[n][d] == raw.data[n][0][d] {
        var col := Column(raw.data[n][..1], d);
        assert col == [raw.data[n][0][d]];
        assert Sum(col) == raw.data[n][0][d] + Sum([]);
      }
    }
  }
}
