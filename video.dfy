/** Camera frames: the pixel buffers the capture device delivers, the
    horizontal mirror applied to each of them and the BGR-to-RGB conversion
    done before landmark detection. */
module Video {

  /** One 8-bit colour channel. */
  type Byte = b: int | 0 <= b < 256

  /** A pixel as three channels in storage order; the camera delivers them
      as blue, green, red. */
  datatype Pixel = Pixel(c0: Byte, c1: Byte, c2: Byte)

  /** A frame of `height` rows of `width` pixels each, row-major, as the
      array of shape (height, width, 3) that a capture read returns. */
  datatype Frame = Frame(width: nat, height: nat, rows: seq<seq<Pixel>>) {
    predicate Valid() {
      |rows| == height && forall r :: 0 <= r < |rows| ==> |rows[r]| == width
    }
  }

  /** One row read right to left. */
  function ReverseRow(row: seq<Pixel>): (r: seq<Pixel>)
    ensures |r| == |row|
    ensures forall c :: 0 <= c < |row| ==> r[c] == row[|row| - 1 - c]
  {
    seq(|row|, c requires 0 <= c < |row| => row[|row| - 1 - c])
  }

  /** The horizontal flip of a frame around its vertical axis (flip code 1). */
  function Mirror(f: Frame): (m: Frame)
    ensures m.width == f.width && m.height == f.height && |m.rows| == |f.rows|
    ensures f.Valid() ==> m.Valid()
    ensures forall r, c :: 0 <= r < |f.rows| && 0 <= c < |f.rows[r]| ==>
      |m.rows[r]| == |f.rows[r]| && m.rows[r][c] == f.rows[r][|f.rows[r]| - 1 - c]
  {
    Frame(f.width, f.height, seq(|f.rows|, r requires 0 <= r < |f.rows| => ReverseRow(f.rows[r])))
  }

  /** The first and third channels exchanged: blue-green-red becomes
      red-green-blue. */
  function SwapRedBlue(p: Pixel): (q: Pixel)
    ensures q.c0 == p.c2 && q.c1 == p.c1 && q.c2 == p.c0
  {
    Pixel(p.c2, p.c1, p.c0)
  }

  /** The colour conversion applied to every pixel of a frame before it is
      handed to the landmark detector. */
  function ToRgb(f: Frame): (g: Frame)
    ensures g.width == f.width && g.height == f.height && |g.rows| == |f.rows|
    ensures forall r, c :: 0 <= r < |f.rows| && 0 <= c < |f.rows[r]| ==>
      |g.rows[r]| == |f.rows[r]| && g.rows[r][c] == SwapRedBlue(f.rows[r][c])
  {
    Frame(f.width, f.height,
      seq(|f.rows|, r requires 0 <= r < |f.rows| =>
        seq(|f.rows[r]|, c requires 0 <= c < |f.rows[r]| => SwapRedBlue(f.rows[r][c]))))
  }

  /** Mirroring twice gives back the frame the camera delivered. */
  lemma {:induction false} MirrorInvolutive(f: Frame)
    ensures Mirror(Mirror(f)) == f
  {
    var m := Mirror(Mirror(f));
    assert |m.rows| == |f.rows|;
    forall r | 0 <= r < |f.rows|
      ensures m.rows[r] == f.rows[r]
    {
      assert |m.rows[r]| == |f.rows[r]|;
      forall c | 0 <= c < |f.rows[r]|
        ensures m.rows[r][c] == f.rows[r][c]
      {
        assert 0 <= |f.rows[r]| - 1 - c < |f.rows[r]|;
      }
    }
  }

  /** The conversion fed to the detector does not depend on whether it is
      applied before or after the mirror. */
  lemma {:induction false} ToRgbCommutesWithMirror(f: Frame)
    ensures ToRgb(Mirror(f)) == Mirror(ToRgb(f))
  {
    var a, b := ToRgb(Mirror(f)), Mirror(ToRgb(f));
    forall r | 0 <= r < |f.rows|
      ensures a.rows[r] == b.rows[r]
    {
      assert |a.rows[r]| == |b.rows[r]|;
      forall c | 0 <= c < |f.rows[r]|
        ensures a.rows[r][c] == b.rows[r][c]
      {
        assert 0 <= |f.rows[r]| - 1 - c < |f.rows[r]|;
      }
    }
  }
}
