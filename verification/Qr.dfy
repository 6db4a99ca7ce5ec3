/**
  The two renderings of a pairing QR (`qr.rs`): terminal text and a gray image. Both draw the same
  modules, inside a quiet zone of four.

  A module is eight pixels wide. The code is a `width` by `width` matrix, given row by row, true
  for a dark module.
 */
module Qr {

  const Black: nat := 0
  const White: nat := 255

  const Full: char := '\U{2588}'

  ghost predicate Square(colors: seq<bool>, width: nat) {
    |colors| == width * width
  }

  /** The modules on a side, with the quiet zone. */
  function Side(width: nat): nat {
    width + 8
  }

  predicate Inside(width: nat, x: nat, y: nat) {
    x >= 4 && y >= 4 && x < 4 + width && y < 4 + width
  }

  /** The module at (x, y), counting the quiet zone, is dark. */
  predicate Dark(colors: seq<bool>, width: nat, x: nat, y: nat)
    requires Square(colors, width)
  {
    Inside(width, x, y) && (InRange(width, x - 4, y - 4); colors[(y - 4) * width + (x - 4)])
  }

  // ---------------------------------------------------------------- row-major arithmetic

  lemma {:induction false} Scales(a: nat, b: nat, w: nat)
    requires a <= b
    ensures a * w <= b * w && (a + 1) * w == a * w + w
  {
  }

  lemma {:induction false} InRange(width: nat, x: nat, y: nat)
    requires x < width && y < width
    ensures 0 <= y * width + x < width * width
  {
    Scales(y, y, width);
    Scales(y + 1, width, width);
  }

  /** The index of a module is where row-major order puts it. */
  lemma {:induction false} Coordinates(width: nat, index: nat)
    requires index < width * width
    ensures width > 0 && index % width < width && index / width < width
    ensures index == index / width * width + index % width
  {
    if index / width >= width {
      Scales(width, index / width, width);
    }
  }

  // ---------------------------------------------------------------- text

  function Cell(dark: bool): string {
    if dark then [Full, Full] else "  "
  }

  /** The first `n` cells of row `y`. */
  function Cells(colors: seq<bool>, width: nat, y: nat, n: nat): (r: string)
    requires Square(colors, width)
    ensures |r| == 2 * n
    ensures forall x: nat :: x < n ==> r[2 * x] == r[2 * x + 1] == if Dark(colors, width, x, y) then Full else ' '
  {
    if n == 0 then "" else Cells(colors, width, y, n - 1) + Cell(Dark(colors, width, n - 1, y))
  }

  function Row(colors: seq<bool>, width: nat, y: nat): (r: string)
    requires Square(colors, width)
    ensures |r| == 2 * Side(width) + 1
  {
    Cells(colors, width, y, Side(width)) + "\n"
  }

  function Rows(colors: seq<bool>, width: nat, n: nat): string
    requires Square(colors, width)
  {
    if n == 0 then "" else Rows(colors, width, n - 1) + Row(colors, width, n - 1)
  }

  lemma {:induction false} RowsLength(colors: seq<bool>, width: nat, n: nat, stride: nat)
    requires Square(colors, width) && stride == 2 * Side(width) + 1
    ensures |Rows(colors, width, n)| == n * stride
    decreases n
  {
    if n > 0 {
      RowsLength(colors, width, n - 1, stride);
      Scales(n - 1, n - 1, stride);
    }
  }

  /** Row `y` stands whole where its number puts it. */
  lemma {:induction false} RowAt(colors: seq<bool>, width: nat, n: nat, y: nat, c: nat, stride: nat)
    requires Square(colors, width) && y < n && stride == 2 * Side(width) + 1 && c < stride
    ensures y * stride + c < |Rows(colors, width, n)| && Rows(colors, width, n)[y * stride + c] == Row(colors, width, y)[c]
    decreases n
  {
    RowsLength(colors, width, n - 1, stride);
    if y < n - 1 {
      RowAt(colors, width, n - 1, y, c, stride);
    }
  }

  method AsciiQr(colors: seq<bool>, width: nat) returns (text: string)
    requires Square(colors, width)
    ensures text == Rows(colors, width, Side(width))
  {
    text := "";
    for y := 0 to Side(width)
      invariant text == Rows(colors, width, y)
    {
      for x := 0 to Side(width)
        invariant text == Rows(colors, width, y) + Cells(colors, width, y, x)
      {
        text := text + Cell(Dark(colors, width, x, y));
      }
      text := text + "\n";
    }
  }

  // ---------------------------------------------------------------- image

  /** What a pixel is once the modules before `index` are painted. */
  function Pixel(colors: seq<bool>, width: nat, index: nat, px: nat, py: nat): nat
    requires Square(colors, width)
  {
    var x, y := px / 8, py / 8;
    if Dark(colors, width, x, y) && (y - 4) * width + (x - 4) < index then Black else White
  }

  ghost predicate Shows(img: array2<nat>, colors: seq<bool>, width: nat, index: nat)
    requires Square(colors, width)
    reads img
  {
    && img.Length0 == img.Length1 == Side(width) * 8
    && forall px: nat, py: nat :: px < img.Length0 && py < img.Length1 ==> img[px, py] == Pixel(colors, width, index, px, py)
  }

  method PaintModule(img: array2<nat>, x: nat, y: nat)
    requires x * 8 + 8 <= img.Length0 && y * 8 + 8 <= img.Length1
    modifies img
    ensures forall px: nat, py: nat :: px < img.Length0 && py < img.Length1 ==>
              img[px, py] == if px / 8 == x && py / 8 == y then Black else old(img[px, py])
  {
    for dy := 0 to 8
      invariant forall px: nat, py: nat :: px < img.Length0 && py < img.Length1 ==>
                  img[px, py] == if px / 8 == x && py / 8 == y && py % 8 < dy then Black else old(img[px, py])
    {
      for dx := 0 to 8
        invariant forall px: nat, py: nat :: px < img.Length0 && py < img.Length1 ==>
                    img[px, py] == if px / 8 == x && py / 8 == y && (py % 8 < dy || (py % 8 == dy && px % 8 < dx))
                                   then Black else old(img[px, py])
      {
        img[x * 8 + dx, y * 8 + dy] := Black;
      }
    }
  }

  lemma {:induction false} OneIndex(width: nat, x: nat, y: nat, u: nat, v: nat)
    requires x < width && y < width && u < width && v < width
    ensures y * width + x == v * width + u <==> x == u && y == v
  {
    Scales(y, y, width);
    Scales(v, v, width);
    if y < v {
      Scales(y + 1, v, width);
    } else if v < y {
      Scales(v + 1, y, width);
    }
  }

  /** Painting the dark module `index`, at (u, v), is all that changes the picture from `index` to the
      next. */
  lemma {:induction false} NextPixel(colors: seq<bool>, width: nat, index: nat, u: nat, v: nat, px: nat, py: nat)
    requires Square(colors, width) && index < |colors| && u < width && v < width && index == v * width + u
    ensures Pixel(colors, width, index + 1, px, py)
            == if colors[index] && px / 8 == u + 4 && py / 8 == v + 4 then Black
               else Pixel(colors, width, index, px, py)
  {
    var x, y := px / 8, py / 8;
    if Inside(width, x, y) {
      InRange(width, x - 4, y - 4);
      OneIndex(width, x - 4, y - 4, u, v);
    }
  }

  /** Paint the module if it is dark. */
  method DrawModule(img: array2<nat>, colors: seq<bool>, width: nat, index: nat)
    requires Square(colors, width) && index < |colors| && Shows(img, colors, width, index)
    modifies img
    ensures Shows(img, colors, width, index + 1)
  {
    Coordinates(width, index);
    var u, v := index % width, index / width;
    if colors[index] {
      PaintModule(img, u + 4, v + 4);
    }
    forall px: nat, py: nat | px < img.Length0 && py < img.Length1
      ensures img[px, py] == Pixel(colors, width, index + 1, px, py)
    {
      NextPixel(colors, width, index, u, v, px, py);
    }
  }

  method Blank(side: nat) returns (img: array2<nat>)
    ensures fresh(img) && img.Length0 == img.Length1 == side
    ensures forall px: nat, py: nat :: px < side && py < side ==> img[px, py] == White
  {
    img := new nat[side, side]((_, _) => White);
  }

  lemma {:induction false} FirstPixel(colors: seq<bool>, width: nat, px: nat, py: nat)
    requires Square(colors, width)
    ensures Pixel(colors, width, 0, px, py) == White
  {
    if Inside(width, px / 8, py / 8) {
      InRange(width, px / 8 - 4, py / 8 - 4);
    }
  }

  method DrawQr(colors: seq<bool>, width: nat) returns (img: array2<nat>)
    requires Square(colors, width)
    ensures fresh(img) && Shows(img, colors, width, |colors|)
  {
    img := Blank(Side(width) * 8);
    forall px: nat, py: nat | px < img.Length0 && py < img.Length1
      ensures img[px, py] == Pixel(colors, width, 0, px, py)
    {
      FirstPixel(colors, width, px, py);
    }
    for index := 0 to |colors|
      invariant Shows(img, colors, width, index)
    {
      DrawModule(img, colors, width, index);
    }
  }

  // ---------------------------------------------------------------- they agree

  /** The pixels of module (x, y) are all of one colour. */
  ghost predicate Block(img: array2<nat>, x: nat, y: nat, colour: nat)
    reads img
  {
    forall px: nat, py: nat :: px < img.Length0 && py < img.Length1 && px / 8 == x && py / 8 == y ==> img[px, py] == colour
  }

  /** Where cell (x, y) starts in the text. */
  function CellStart(width: nat, x: nat, y: nat): nat {
    y * (2 * Side(width) + 1) + 2 * x
  }

  lemma {:induction false} RowFrom(colors: seq<bool>, width: nat, y: nat, c: nat, base: nat)
    requires Square(colors, width) && y < Side(width) && c < 2 * Side(width) + 1 && base == y * (2 * Side(width) + 1)
    ensures var text := Rows(colors, width, Side(width));
            base + c < |text| && text[base + c] == Row(colors, width, y)[c]
  {
    RowAt(colors, width, Side(width), y, c, 2 * Side(width) + 1);
  }

  lemma {:induction false} CellIn(text: string, row: string, at: nat, c: nat, dark: bool)
    requires c + 2 <= |row| && at + 2 <= |text| && text[at] == row[c] && text[at + 1] == row[c + 1]
    requires row[c] == row[c + 1] == if dark then Full else ' '
    ensures text[at..at + 2] == Cell(dark)
  {
  }

  lemma {:induction false} TextShows(colors: seq<bool>, width: nat, x: nat, y: nat)
    requires Square(colors, width) && x < Side(width) && y < Side(width)
    ensures var text, at := Rows(colors, width, Side(width)), CellStart(width, x, y);
            at + 2 <= |text| && text[at..at + 2] == Cell(Dark(colors, width, x, y))
    ensures var text, end := Rows(colors, width, Side(width)), CellStart(width, Side(width), y);
            end < |text| && text[end] == '\n'
  {
    var base := y * (2 * Side(width) + 1);
    RowFrom(colors, width, y, 2 * Side(width), base);
    RowFrom(colors, width, y, 2 * x, base);
    RowFrom(colors, width, y, 2 * x + 1, base);
    CellIn(Rows(colors, width, Side(width)), Row(colors, width, y), base + 2 * x, 2 * x, Dark(colors, width, x, y));
  }

  lemma {:induction false} ImageShows(img: array2<nat>, colors: seq<bool>, width: nat, x: nat, y: nat)
    requires Square(colors, width) && Shows(img, colors, width, |colors|)
    ensures Block(img, x, y, if Dark(colors, width, x, y) then Black else White)
  {
    if Inside(width, x, y) {
      InRange(width, x - 4, y - 4);
    }
  }

  /** Any code, any cell: the image's block is black exactly where the text's cell is filled, which is
      exactly where the module is dark; else it is white and the cell blank. */
  lemma {:induction false} RenderingsAgree(img: array2<nat>, colors: seq<bool>, width: nat, x: nat, y: nat)
    requires Square(colors, width) && Shows(img, colors, width, |colors|) && x < Side(width) && y < Side(width)
    ensures var text, at := Rows(colors, width, Side(width)), CellStart(width, x, y);
            && at + 2 <= |text|
            && (Block(img, x, y, Black) <==> text[at..at + 2] == [Full, Full])
            && (Block(img, x, y, White) <==> text[at..at + 2] == "  ")
            && (Block(img, x, y, Black) <==> Dark(colors, width, x, y))
            && (Block(img, x, y, Black) || Block(img, x, y, White))
  {
    TextShows(colors, width, x, y);
    ImageShows(img, colors, width, x, y);
    var colour := img[8 * x, 8 * y];
    assert (8 * x) / 8 == x && (8 * y) / 8 == y;
    assert Cell(true)[0] != Cell(false)[0];
  }

  /** Row `r`, column `c` of the code is the module four down and four to the right. */
  lemma {:induction false} ModuleOf(colors: seq<bool>, width: nat, c: nat, r: nat)
    requires Square(colors, width) && c < width && r < width
    ensures 0 <= r * width + c < |colors| && Dark(colors, width, c + 4, r + 4) == colors[r * width + c]
  {
    InRange(width, c, r);
  }

  /** It is drawn dark for dark, on a picture eight modules wider and higher than the code. */
  lemma {:induction false} CodeIsDrawn(img: array2<nat>, colors: seq<bool>, width: nat, c: nat, r: nat)
    requires Square(colors, width) && Shows(img, colors, width, |colors|) && c < width && r < width
    ensures 0 <= r * width + c < |colors| && img.Length0 == img.Length1 == (width + 8) * 8
    ensures Block(img, c + 4, r + 4, if colors[r * width + c] then 0 else 255)
  {
    ModuleOf(colors, width, c, r);
    ImageShows(img, colors, width, c + 4, r + 4);
  }

  /** And written dark for dark, on as many rows. */
  lemma {:induction false} CodeIsWritten(colors: seq<bool>, width: nat, c: nat, r: nat)
    requires Square(colors, width) && c < width && r < width
    ensures 0 <= r * width + c < |colors|
    ensures var text, at := Rows(colors, width, width + 8), CellStart(width, c + 4, r + 4);
            at + 2 <= |text| && text[at..at + 2] == if colors[r * width + c] then "\U{2588}\U{2588}" else "  "
  {
    ModuleOf(colors, width, c, r);
    TextShows(colors, width, c + 4, r + 4);
  }

  /** Four modules on every side stay white. */
  lemma {:induction false} QuietZoneIsWhite(img: array2<nat>, colors: seq<bool>, width: nat, x: nat, y: nat)
    requires Square(colors, width) && Shows(img, colors, width, |colors|)
    requires x < 4 || y < 4 || x >= width + 4 || y >= width + 4
    ensures Block(img, x, y, White)
  {
    ImageShows(img, colors, width, x, y);
  }
}
