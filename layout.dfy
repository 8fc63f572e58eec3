/** The geometry of the output: each labeled image (name above the QR code) and the canvas
    the images are pasted onto side by side (generate_qr.py:76-79, 88-95). Pixel sizes
    of the QR raster and of the rendered name come from outside and are plain numbers. */
module Layout {

  /** Vertical gap between the label band and the QR code. */
  const LabelGap: nat := 10

  /** Horizontal gap between neighbouring images on the canvas. */
  const Gutter: nat := 20

  /** One labeled image: the URL its code encodes, the name drawn above it, the size of
      the QR raster and the height of the rendered name. */
  datatype LabeledImage = LabeledImage(url: string, name: string,
                                       qrWidth: nat, qrHeight: nat, textHeight: nat)
  {
    /** `Image.new(..., (qr_img.width, qr_img.height + text_height + 10))`. */
    function Width(): nat { qrWidth }
    function Height(): nat { qrHeight + textHeight + LabelGap }
    /** The QR raster is pasted at `(0, text_height + 10)`. */
    function QrTop(): nat { textHeight + LabelGap }
  }

  function Widths(imgs: seq<LabeledImage>): (ws: seq<nat>)
    ensures |ws| == |imgs| && forall k :: 0 <= k < |imgs| ==> ws[k] == imgs[k].Width()
  {
    seq(|imgs|, k requires 0 <= k < |imgs| => imgs[k].Width())
  }

  function Heights(imgs: seq<LabeledImage>): (hs: seq<nat>)
    ensures |hs| == |imgs| && forall k :: 0 <= k < |imgs| ==> hs[k] == imgs[k].Height()
  {
    seq(|imgs|, k requires 0 <= k < |imgs| => imgs[k].Height())
  }

  /** `sum(...)`, adding from the left. */
  function Sum(xs: seq<nat>): nat {
    if xs == [] then 0 else Sum(xs[..|xs| - 1]) + xs[|xs| - 1]
  }

  /** `max(...)` of a non-empty sequence: an element that no element exceeds. */
  function Max(xs: seq<nat>): (m: nat)
    requires xs != []
    ensures forall k :: 0 <= k < |xs| ==> xs[k] <= m
    ensures exists k :: 0 <= k < |xs| && xs[k] == m
  {
    if |xs| == 1 then xs[0]
    else
      var m := Max(xs[..|xs| - 1]);
      if xs[|xs| - 1] > m then xs[|xs| - 1] else m
  }

  /** `total_width`: the widths plus one gutter between each neighbouring pair. */
  function CanvasWidth(ws: seq<nat>): nat
    requires ws != []
  {
    Sum(ws) + Gutter * (|ws| - 1)
  }

  /** Where image `k` is pasted: after every earlier image and its gutter. */
  function Offset(ws: seq<nat>, k: nat): nat
    requires k <= |ws|
  {
    Sum(ws[..k]) + Gutter * k
  }

  /** Each image starts one width and one gutter after the one before it. */
  lemma OffsetStep(ws: seq<nat>, k: nat)
    requires k < |ws|
    ensures Offset(ws, k + 1) == Offset(ws, k) + ws[k] + Gutter
  {
    assert ws[..k + 1][..k] == ws[..k];
  }

  /** The pasted images sit left to right without overlapping, separated by exactly one
      gutter, inside the canvas; the last one ends exactly at the canvas's right edge,
      and no image is taller than the canvas. */
  lemma CanvasLayout(ws: seq<nat>, hs: seq<nat>)
    requires ws != [] && |hs| == |ws|
    ensures forall k :: 0 <= k < |ws| - 1 ==> Offset(ws, k) + ws[k] + Gutter == Offset(ws, k + 1)
    ensures forall k :: 0 <= k < |ws| ==> Offset(ws, k) + ws[k] <= CanvasWidth(ws)
    ensures Offset(ws, |ws| - 1) + ws[|ws| - 1] == CanvasWidth(ws)
    ensures forall k :: 0 <= k < |hs| ==> hs[k] <= Max(hs)
  {
    forall k | 0 <= k < |ws| ensures Offset(ws, k + 1) == Offset(ws, k) + ws[k] + Gutter {
      OffsetStep(ws, k);
    }
    assert ws[..|ws|] == ws;
    forall k | 0 <= k < |ws| ensures Offset(ws, k) + ws[k] <= CanvasWidth(ws) {
      OffsetMonotone(ws, k + 1, |ws|);
    }
  }

  lemma {:induction false} OffsetMonotone(ws: seq<nat>, i: nat, j: nat)
    requires i <= j <= |ws|
    ensures Offset(ws, i) <= Offset(ws, j)
    decreases j - i
  {
    if i < j {
      OffsetStep(ws, i);
      OffsetMonotone(ws, i + 1, j);
    }
  }

  /** The paste loop: `x` starts at 0 and advances by each image's width plus the gutter. */
  method PasteOffsets(ws: seq<nat>) returns (xs: seq<nat>)
    ensures |xs| == |ws|
    ensures forall k :: 0 <= k < |ws| ==> xs[k] == Offset(ws, k)
  {
    xs := [];
    var x: nat := 0;
    var i := 0;
    while i < |ws|
      invariant 0 <= i <= |ws|
      invariant |xs| == i && x == Offset(ws, i)
      invariant forall k :: 0 <= k < i ==> xs[k] == Offset(ws, k)
    {
      xs := xs + [x];
      OffsetStep(ws, i);
      x := x + ws[i] + Gutter;
      i := i + 1;
    }
  }

  /** The saved picture: its size, the images on it and their x positions (all at y = 0). */
  datatype Canvas = Canvas(width: nat, height: nat, images: seq<LabeledImage>, offsets: seq<nat>)

  /** Where each image goes: the paste positions for these widths. */
  function Offsets(ws: seq<nat>): (xs: seq<nat>)
    ensures |xs| == |ws| && forall k :: 0 <= k < |ws| ==> xs[k] == Offset(ws, k)
  {
    seq(|ws|, k requires 0 <= k < |ws| => Offset(ws, k))
  }

  /** The canvas for a non-empty list of labeled images. */
  function Compose(images: seq<LabeledImage>): Canvas
    requires images != []
  {
    var ws := Widths(images);
    Canvas(CanvasWidth(ws), Max(Heights(images)), images, Offsets(ws))
  }

  /** On the composed canvas every image lies inside the canvas and clear of its
      neighbours, separated by one gutter; the last one reaches the right edge, and the
      canvas is exactly as tall as the tallest image. */
  lemma ComposeLayout(images: seq<LabeledImage>)
    requires images != []
    ensures var c := Compose(images);
            && |c.offsets| == |c.images| == |images|
            && c.offsets[0] == 0
            && (forall k :: 0 <= k < |images| ==> c.offsets[k] + images[k].Width() <= c.width)
            && (forall k :: 0 <= k < |images| - 1 ==>
                  c.offsets[k] + images[k].Width() + Gutter == c.offsets[k + 1])
            && c.offsets[|images| - 1] + images[|images| - 1].Width() == c.width
            && (forall k :: 0 <= k < |images| ==> images[k].Height() <= c.height)
            && (exists k :: 0 <= k < |images| && images[k].Height() == c.height)
  {
    var ws, hs := Widths(images), Heights(images);
    CanvasLayout(ws, hs);
    assert ws[..0] == [];
  }

  /** Every QR raster, pasted at `(0, text_height + 10)` inside its labeled image, lies
      inside the composed canvas. */
  lemma QrInsideCanvas(images: seq<LabeledImage>, k: nat)
    requires images != [] && k < |images|
    ensures var c := Compose(images);
            && c.offsets[k] + images[k].qrWidth <= c.width
            && images[k].QrTop() + images[k].qrHeight <= c.height
  {
    ComposeLayout(images);
  }

  /** `total_width`, `max_height` and the paste loop. */
  method ComposeCanvas(images: seq<LabeledImage>) returns (c: Canvas)
    requires images != []
    ensures c == Compose(images)
  {
    var ws := Widths(images);
    var xs := PasteOffsets(ws);
    c := Canvas(CanvasWidth(ws), Max(Heights(images)), images, xs);
  }
}
