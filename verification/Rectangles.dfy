/** Sums over rectangles of an image. */
module Rectangles {

  /** Sample `ch` of the pixel at (x, y). */
  type Image = (int, int, int) -> int

  function RowTotal(img: Image, ch: int, y: int, l: int, r: int): int
    decreases r - l
  {
    if r <= l then 0 else RowTotal(img, ch, y, l, r - 1) + img(r - 1, y, ch)
  }

  /** The sum of the samples with l <= x < r and t <= y < b. */
  function RectTotal(img: Image, ch: int, l: int, r: int, t: int, b: int): int
    decreases b - t
  {
    if b <= t then 0 else RectTotal(img, ch, l, r, t, b - 1) + RowTotal(img, ch, b - 1, l, r)
  }

  lemma {:induction false} RowSplit(img: Image, ch: int, y: int, l: int, m: int, r: int)
    requires l <= m <= r
    ensures RowTotal(img, ch, y, l, r) == RowTotal(img, ch, y, l, m) + RowTotal(img, ch, y, m, r)
    decreases r - m
  {
    if m < r { RowSplit(img, ch, y, l, m, r - 1); }
  }

  lemma {:induction false} RectSplitX(img: Image, ch: int, l: int, m: int, r: int, t: int, b: int)
    requires l <= m <= r
    ensures RectTotal(img, ch, l, r, t, b) == RectTotal(img, ch, l, m, t, b) + RectTotal(img, ch, m, r, t, b)
    decreases b - t
  {
    if t < b {
      RectSplitX(img, ch, l, m, r, t, b - 1);
      RowSplit(img, ch, b - 1, l, m, r);
    }
  }

  lemma {:induction false} RectSplitY(img: Image, ch: int, l: int, r: int, t: int, m: int, b: int)
    requires t <= m <= b
    ensures RectTotal(img, ch, l, r, t, b) == RectTotal(img, ch, l, r, t, m) + RectTotal(img, ch, l, r, m, b)
    decreases b - m
  {
    if m < b { RectSplitY(img, ch, l, r, t, m, b - 1); }
  }

  /** Inside the rectangle, `part` is `img` moved by (dx, dy). */
  ghost predicate Moved(img: Image, part: Image, ch: int, dx: int, dy: int, l: int, r: int, t: int, b: int) {
    forall x, y | l <= x < r && t <= y < b :: part(x, y, ch) == img(x + dx, y + dy, ch)
  }

  lemma {:induction false} RowMoved(img: Image, part: Image, ch: int, y: int, dx: int, dy: int, l: int, r: int)
    requires Moved(img, part, ch, dx, dy, l, r, y, y + 1)
    ensures RowTotal(part, ch, y, l, r) == RowTotal(img, ch, y + dy, l + dx, r + dx)
    decreases r - l
  {
    if l < r { RowMoved(img, part, ch, y, dx, dy, l, r - 1); }
  }

  lemma {:induction false} RectMoved(img: Image, part: Image, ch: int, dx: int, dy: int, l: int, r: int, t: int, b: int)
    requires Moved(img, part, ch, dx, dy, l, r, t, b)
    ensures RectTotal(part, ch, l, r, t, b) == RectTotal(img, ch, l + dx, r + dx, t + dy, b + dy)
    decreases b - t
  {
    if t < b {
      RectMoved(img, part, ch, dx, dy, l, r, t, b - 1);
      RowMoved(img, part, ch, b - 1, dx, dy, l, r);
    }
  }

  lemma EmptyRect(img: Image, ch: int, l: int, t: int, b: int)
    ensures RectTotal(img, ch, l, l, t, b) == 0
    decreases b - t
  {
    if t < b { EmptyRect(img, ch, l, t, b - 1); }
  }
}
