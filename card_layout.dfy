/**
 * The overlays of a unit card: their integer geometry on the 1050 x 750
 * canvas, and the drawing of the name box, the stat box and the text box,
 * each into a fresh transparent image of the card's size. An image is
 * modelled by the marks drawn on it, in order; pixels are not modelled.
 */
module CardLayout {
  import opened Wrappers
  import opened Strings
  import opened Paths

  datatype Point = Point(x: int, y: int)

  /** A point given in half pixels, at (x2 / 2, y2 / 2): text is anchored at .5 coordinates. */
  datatype HalfPoint = HalfPoint(x2: int, y2: int)

  /** The rectangle with corners (left, top) and (right, bottom). */
  datatype Rect = Rect(left: int, top: int, right: int, bottom: int)

  /** The pixel size of an image. */
  datatype Size = Size(width: nat, height: nat)

  predicate Within(r: Rect, outer: Rect) {
    outer.left <= r.left && r.right <= outer.right && outer.top <= r.top && r.bottom <= outer.bottom
  }

  /** What can go wrong while making a card: an image file that is not there. */
  datatype CardError =
    | PictureMissing(picture: Path)
    | FlagMissing(country: string)
    | UnitIconMissing(arm: string)
    | StatIconMissing(icon: string)

  /**
   * What drawing leaves on an image, in drawing order: a half-opaque filled
   * box, a line, text with its anchor, an icon pasted into a rectangle, or a
   * whole image pasted at an offset.
   */
  datatype Mark =
    | Box(area: Rect)
    | Line(from: Point, to: Point)
    | Text(text: string, at: HalfPoint, anchor: string, fontSize: nat)
    | Icon(file: string, area: Rect)
    | Paste(layer: Layer, offset: Point, masked: bool)

  /**
   * An image pasted onto the card: a background picture fitted to the card,
   * a country flag resized to a square of `side` pixels, or an overlay given
   * by its marks.
   */
  datatype Layer =
    | Fitted(picture: Path)
    | Flag(file: string, side: nat)
    | Overlay(marks: seq<Mark>)

  /** An RGBA image of a given size, modelled by the marks drawn on it so far. */
  class Image {
    const width: nat
    const height: nat
    var marks: seq<Mark>

    constructor (width: nat, height: nat)
      ensures this.width == width && this.height == height && marks == []
    {
      this.width := width;
      this.height := height;
      marks := [];
    }

    method Draw(m: Mark)
      modifies this
      ensures marks == old(marks) + [m]
    {
      marks := marks + [m];
    }
  }

  // ---------------------------------------------------------------------------
  // The canvas

  const CardX := 1050
  const CardY := 750
  const Canvas := Rect(0, 0, CardX, CardY)

  /** The country flag is resized to 64 x 64 and pasted at (964, 14). */
  const FlagSide := 64
  const FlagAt := Point(964, 14)
  const FlagBox := Rect(FlagAt.x, FlagAt.y, FlagAt.x + FlagSide, FlagAt.y + FlagSide)

  // ---------------------------------------------------------------------------
  // The name box

  const NameBoxX := 200
  const NameBoxY := 20
  const NameBoxSizeX := 660
  const NameBoxSizeY := 55
  const NameBoxMargin := 5
  const NameBox := Rect(NameBoxX, NameBoxY, NameBoxSizeX + NameBoxX, NameBoxSizeY + NameBoxY)

  /** The name is written as tall as the box less a margin above and below. */
  const NameFontSize: nat := NameBoxSizeY - 2 * NameBoxMargin

  /** The name is anchored left-middle at (205, 47.5). */
  const NameAnchor := HalfPoint(2 * (NameBoxX + NameBoxMargin), 2 * NameBoxY + NameBoxSizeY)

  /** The file of the icon of an arm in the unit-icon folder. */
  function UnitIconFile(arm: string): string {
    Lower(arm) + ".png"
  }

  /** The rectangle a unit icon of the given size is pasted into: its bottom-right corner is the box's, inset by the margin. */
  function IconPasteBox(icon: Size): Rect {
    var extremeX := NameBoxX + NameBoxSizeX - NameBoxMargin;
    var extremeY := NameBoxY + NameBoxSizeY - NameBoxMargin;
    Rect(extremeX - icon.width, extremeY - icon.height, extremeX, extremeY)
  }

  /**
   * The marks of the name box: the box, the name, then the arm's icon, whose
   * absence is an error.
   */
  function NameBoxMarks(name: string, arm: string, unitIcons: map<string, Size>): Result<seq<Mark>, CardError> {
    var file := UnitIconFile(arm);
    if file !in unitIcons then Err(UnitIconMissing(arm))
    else Ok([Box(NameBox), Text(name, NameAnchor, "lm", NameFontSize), Icon(file, IconPasteBox(unitIcons[file]))])
  }

  /** Draws the name box into a fresh card-sized image. */
  method DrawNameBox(name: string, arm: string, unitIcons: map<string, Size>) returns (r: Result<Image, CardError>)
    ensures NameBoxMarks(name, arm, unitIcons).Err? ==> r == Err(NameBoxMarks(name, arm, unitIcons).error)
    ensures NameBoxMarks(name, arm, unitIcons).Ok? ==>
      && r.Ok? && fresh(r.value) && r.value.width == CardX && r.value.height == CardY
      && r.value.marks == NameBoxMarks(name, arm, unitIcons).value
  {
    var image := new Image(CardX, CardY);
    image.Draw(Box(NameBox));
    image.Draw(Text(name, NameAnchor, "lm", NameFontSize));
    var iconFile := UnitIconFile(arm);
    if iconFile !in unitIcons {
      return Err(UnitIconMissing(arm));
    }
    image.Draw(Icon(iconFile, IconPasteBox(unitIcons[iconFile])));
    return Ok(image);
  }

  /** The unit-icon lookup fails exactly when there is no icon file named after the lower-cased arm. */
  lemma NameBoxFails(name: string, arm: string, unitIcons: map<string, Size>)
    ensures NameBoxMarks(name, arm, unitIcons).Err? <==> Lower(arm) + ".png" !in unitIcons
    ensures NameBoxMarks(name, arm, unitIcons).Err? ==> NameBoxMarks(name, arm, unitIcons).error == UnitIconMissing(arm)
  {
  }

  /**
   * The name is 45 pixels tall and vertically centred in the box. The unit
   * icon ends 5 pixels inside the box's right and bottom edges, at (855, 70),
   * and lies inside the box exactly when it is at most 655 wide and 50 tall.
   */
  lemma NameBoxGeometry(icon: Size)
    ensures NameFontSize == 45
    ensures NameAnchor.y2 == NameBox.top + NameBox.bottom
    ensures IconPasteBox(icon).right == NameBox.right - NameBoxMargin == 855
    ensures IconPasteBox(icon).bottom == NameBox.bottom - NameBoxMargin == 70
    ensures IconPasteBox(icon).right - IconPasteBox(icon).left == icon.width
    ensures IconPasteBox(icon).bottom - IconPasteBox(icon).top == icon.height
    ensures Within(IconPasteBox(icon), NameBox) <==> icon.width <= 655 && icon.height <= 50
  {
  }

  // ---------------------------------------------------------------------------
  // The stat box

  const StatBoxX := 20
  const StatBoxY := 100
  const StatBoxSizeX := 170
  const StatBoxSizeY := 430
  const StatBoxFontSize: nat := 45
  const StatBoxMargin := 5
  const StatBox := Rect(StatBoxX, StatBoxY, StatBoxSizeX + StatBoxX, StatBoxSizeY + StatBoxY)

  /**
   * The inner height of the box cut into ten half-bands of 42 pixels. The
   * program divides in floating point; 420 / 10 is exact, so every coordinate
   * below is the integer it computes.
   */
  const HalfBand := (StatBoxSizeY - 2 * StatBoxMargin) / 10

  /** The names of the five stats, in the order they are drawn; each has an icon `<name>.png`. */
  const StatNames := ["move", "attacks", "range", "hits", "save"]

  /** The y of the k-th separator line. */
  function SeparatorY(k: int): int {
    StatBoxY + StatBoxMargin + (2 * k) * HalfBand
  }

  /** The y of the centre of the i-th stat band, where its icon and value go. */
  function BandCentreY(i: int): int {
    StatBoxY + StatBoxMargin + (1 + 2 * i) * HalfBand
  }

  /** Icons are centred at x = int(20 + 170 / 4): truncation of 62.5. */
  const StatIconX := StatBoxX + StatBoxSizeX / 4

  /** Values are anchored middle-middle at x = 20 + 3 * 170 / 4 = 147.5. */
  const StatValueX2 := 2 * StatBoxX + 3 * StatBoxSizeX / 2

  /** The separator line drawn for `k`, from 5 pixels inside the box's left edge to 5 inside its right edge. */
  function Separator(k: int): Mark {
    Line(Point(StatBoxX + StatBoxMargin, SeparatorY(k)), Point(StatBoxX + StatBoxSizeX - StatBoxMargin, SeparatorY(k)))
  }

  /** The separators for k = 1 .. 4, in drawing order. */
  function Separators(): (ms: seq<Mark>)
    ensures |ms| == 4
  {
    [Separator(1), Separator(2), Separator(3), Separator(4)]
  }

  /** The rectangle an icon of the given size is pasted into in band `i`: centred, rounding its top-left corner down. */
  function StatIconBox(i: int, icon: Size): Rect {
    var left := StatIconX - icon.width / 2;
    var top := BandCentreY(i) - icon.height / 2;
    Rect(left, top, left + icon.width, top + icon.height)
  }

  /**
   * The icon marks for bands `i` .. 4 after the marks `drawn` for the bands
   * before, or the first missing icon. The icons are opened one by one, and
   * the first that is not there aborts the drawing.
   */
  function StatIcons(i: nat, statIcons: map<string, Size>, drawn: seq<Mark>): Result<seq<Mark>, CardError>
    requires i <= 5
    decreases 5 - i
  {
    if i == 5 then Ok(drawn)
    else
      var file := StatNames[i] + ".png";
      if file !in statIcons then Err(StatIconMissing(StatNames[i]))
      else StatIcons(i + 1, statIcons, drawn + [Icon(file, StatIconBox(i, statIcons[file]))])
  }

  /** The value of each stat, written at the centre of its band. */
  function StatValues(stats: seq<string>): (ms: seq<Mark>)
    requires |stats| == 5
    ensures |ms| == 5
  {
    seq(5, i requires 0 <= i < 5 => Text(stats[i], HalfPoint(StatValueX2, 2 * BandCentreY(i)), "mm", StatBoxFontSize))
  }

  /** The marks of the stat box for the five stats: box, separators, icons, values. */
  function StatBoxMarks(stats: seq<string>, statIcons: map<string, Size>): Result<seq<Mark>, CardError>
    requires |stats| == 5
  {
    match StatIcons(0, statIcons, [])
    case Err(e) => Err(e)
    case Ok(icons) => Ok([Box(StatBox)] + Separators() + icons + StatValues(stats))
  }

  /** Draws the stat box into a fresh card-sized image. */
  method DrawStatBox(move: string, attacks: string, range: string, hits: string, save: string, statIcons: map<string, Size>)
    returns (r: Result<Image, CardError>)
    ensures StatBoxMarks([move, attacks, range, hits, save], statIcons).Err? ==>
      r == Err(StatBoxMarks([move, attacks, range, hits, save], statIcons).error)
    ensures StatBoxMarks([move, attacks, range, hits, save], statIcons).Ok? ==>
      && r.Ok? && fresh(r.value) && r.value.width == CardX && r.value.height == CardY
      && r.value.marks == StatBoxMarks([move, attacks, range, hits, save], statIcons).value
  {
    var image := new Image(CardX, CardY);
    image.Draw(Box(StatBox));
    DrawSeparators(image);
    var missing := DrawStatIcons(image, statIcons);
    if missing.Some? {
      return Err(missing.value);
    }
    DrawStatValues(image, [move, attacks, range, hits, save]);
    return Ok(image);
  }

  /** The separator loop: one line for each k = 1 .. 4. */
  method DrawSeparators(image: Image)
    modifies image
    ensures image.marks == old(image.marks) + Separators()
  {
    for index := 1 to 5
      invariant image.marks == old(image.marks) + Separators()[..index - 1]
    {
      var y := StatBoxY + StatBoxMargin + (2 * index) * HalfBand;
      image.Draw(Line(Point(StatBoxX + StatBoxMargin, y), Point(StatBoxX + StatBoxSizeX - StatBoxMargin, y)));
      assert Separators()[..index] == Separators()[..index - 1] + [Separator(index)];
    }
  }

  /**
   * The icon loop: each stat's icon, opened and pasted centred in its band,
   * until one is missing.
   */
  method DrawStatIcons(image: Image, statIcons: map<string, Size>) returns (missing: Option<CardError>)
    modifies image
    ensures StatIcons(0, statIcons, []).Err? ==> missing == Some(StatIcons(0, statIcons, []).error)
    ensures StatIcons(0, statIcons, []).Ok? ==>
      missing == None && image.marks == old(image.marks) + StatIcons(0, statIcons, []).value
  {
    ghost var start := image.marks;
    assert image.marks[|start|..] == [];
    for index := 0 to 5
      invariant |start| <= |image.marks| && image.marks[..|start|] == start
      invariant StatIcons(0, statIcons, []) == StatIcons(index, statIcons, image.marks[|start|..])
    {
      var iconFile := StatNames[index] + ".png";
      if iconFile !in statIcons {
        return Some(StatIconMissing(StatNames[index]));
      }
      var y := StatBoxY + StatBoxMargin + (1 + 2 * index) * HalfBand;
      var size := statIcons[iconFile];
      var x := StatBoxX + StatBoxSizeX / 4;
      ghost var before := image.marks;
      image.Draw(Icon(iconFile, Rect(x - size.width / 2, y - size.height / 2, x - size.width / 2 + size.width, y - size.height / 2 + size.height)));
      assert image.marks[|start|..] == before[|start|..] + [image.marks[|image.marks| - 1]];
    }
    assert image.marks == start + image.marks[|start|..];
    return None;
  }

  /** The value loop: each stat written at the centre of its band. */
  method DrawStatValues(image: Image, stats: seq<string>)
    requires |stats| == 5
    modifies image
    ensures image.marks == old(image.marks) + StatValues(stats)
  {
    for index := 0 to 5
      invariant image.marks == old(image.marks) + StatValues(stats)[..index]
    {
      var y := StatBoxY + StatBoxMargin + (1 + 2 * index) * HalfBand;
      image.Draw(Text(stats[index], HalfPoint(2 * StatBoxX + 3 * StatBoxSizeX / 2, 2 * y), "mm", StatBoxFontSize));
      assert StatValues(stats)[..index + 1] == StatValues(stats)[..index] + [StatValues(stats)[index]];
    }
  }

  /** The icons can all be drawn exactly when the icon file of every remaining stat is there. */
  lemma {:induction false} StatIconsFound(i: nat, statIcons: map<string, Size>, drawn: seq<Mark>)
    requires i <= 5
    ensures StatIcons(i, statIcons, drawn).Ok? <==> forall j :: i <= j < 5 ==> StatNames[j] + ".png" in statIcons
    decreases 5 - i
  {
    if i < 5 {
      var file := StatNames[i] + ".png";
      if file in statIcons {
        StatIconsFound(i + 1, statIcons, drawn + [Icon(file, StatIconBox(i, statIcons[file]))]);
      }
    }
  }

  /** Drawn icons follow the marks before them: those of the remaining stats, in order, each in its band. */
  lemma {:induction false} StatIconsMarks(i: nat, statIcons: map<string, Size>, drawn: seq<Mark>)
    requires i <= 5 && StatIcons(i, statIcons, drawn).Ok?
    ensures var ms := StatIcons(i, statIcons, drawn).value;
      && |ms| == |drawn| + 5 - i && ms[..|drawn|] == drawn
      && forall j :: i <= j < 5 ==>
           && StatNames[j] + ".png" in statIcons
           && ms[|drawn| + j - i] == Icon(StatNames[j] + ".png", StatIconBox(j, statIcons[StatNames[j] + ".png"]))
    decreases 5 - i
  {
    if i < 5 {
      var file := StatNames[i] + ".png";
      var m := Icon(file, StatIconBox(i, statIcons[file]));
      StatIconsMarks(i + 1, statIcons, drawn + [m]);
      var ms := StatIcons(i, statIcons, drawn).value;
      assert ms[..|drawn|] == (ms[..|drawn| + 1])[..|drawn|];
    }
  }

  /** A failed drawing names the first stat whose icon file is missing. */
  lemma {:induction false} StatIconsMissing(i: nat, statIcons: map<string, Size>, drawn: seq<Mark>)
    requires i <= 5 && StatIcons(i, statIcons, drawn).Err?
    ensures exists j :: (i <= j < 5 && StatNames[j] + ".png" !in statIcons
      && (forall l :: i <= l < j ==> StatNames[l] + ".png" in statIcons)
      && StatIcons(i, statIcons, drawn).error == StatIconMissing(StatNames[j]))
    decreases 5 - i
  {
    var file := StatNames[i] + ".png";
    if file in statIcons {
      StatIconsMissing(i + 1, statIcons, drawn + [Icon(file, StatIconBox(i, statIcons[file]))]);
      var j :| i + 1 <= j < 5 && StatNames[j] + ".png" !in statIcons
        && (forall l :: i + 1 <= l < j ==> StatNames[l] + ".png" in statIcons)
        && StatIcons(i + 1, statIcons, drawn + [Icon(file, StatIconBox(i, statIcons[file]))]).error == StatIconMissing(StatNames[j]);
      assert forall l :: i <= l < j ==> StatNames[l] + ".png" in statIcons;
    }
  }

  /**
   * The separators lie at 189, 273, 357 and 441, in increasing order, strictly
   * inside the stat box; the band centres lie at 147, 231, 315, 399 and 483,
   * each strictly between the separators (or the box's inner edges 105 and
   * 525) around it. Icons are centred at x = 62 and values at a quarter of
   * the box's width from its right edge.
   */
  lemma StatBoxGeometry()
    ensures (StatBoxSizeY - 2 * StatBoxMargin) % 10 == 0 && HalfBand == 42
    ensures SeparatorY(1) == 189 && SeparatorY(2) == 273 && SeparatorY(3) == 357 && SeparatorY(4) == 441
    ensures forall k :: 1 <= k < 4 ==> SeparatorY(k) < SeparatorY(k + 1)
    ensures forall k :: 1 <= k <= 4 ==> StatBox.top < SeparatorY(k) < StatBox.bottom
    ensures BandCentreY(0) == 147 && BandCentreY(4) == 483
    ensures StatBoxY + StatBoxMargin < BandCentreY(0) < SeparatorY(1)
    ensures forall i :: 1 <= i < 4 ==> SeparatorY(i) < BandCentreY(i) < SeparatorY(i + 1)
    ensures SeparatorY(4) < BandCentreY(4) < StatBoxY + StatBoxSizeY - StatBoxMargin
    ensures StatIconX == 62
    ensures 2 * StatValueX2 == 4 * StatBox.left + 3 * StatBoxSizeX
  {
  }

  /**
   * A stat icon is centred on (62, centre of its band), to the half pixel,
   * and lies within its 84-pixel band of the stat box exactly when it is at
   * most 85 wide and 84 tall.
   */
  lemma StatIconInBand(i: int, icon: Size)
    ensures var b := StatIconBox(i, icon);
      && b.left + b.right == 2 * StatIconX + icon.width % 2
      && b.top + b.bottom == 2 * BandCentreY(i) + icon.height % 2
      && b.right - b.left == icon.width && b.bottom - b.top == icon.height
    ensures Within(StatIconBox(i, icon), Rect(StatBoxX, BandCentreY(i) - HalfBand, StatBox.right, BandCentreY(i) + HalfBand))
      <==> icon.width <= 85 && icon.height <= 84
  {
  }

  // ---------------------------------------------------------------------------
  // The text box

  const TextBoxX := 20
  const TextBoxY := 600
  const TextBoxSizeX := 1010
  const TextBoxSizeY := 130
  const TextBoxMargin := 10
  const TextBoxFontSize: nat := 30
  const TextBox := Rect(TextBoxX, TextBoxY, TextBoxSizeX + TextBoxX, TextBoxSizeY + TextBoxY)

  /** The notes are anchored left-top at (30, 610). */
  const NotesAnchor := HalfPoint(2 * (TextBoxX + TextBoxMargin), 2 * (TextBoxY + TextBoxMargin))

  /** The marks of the text box: the box and the notes. The flavour text is not drawn. */
  function TextBoxMarks(notes: string, flavour: string): seq<Mark> {
    [Box(TextBox), Text(notes, NotesAnchor, "lt", TextBoxFontSize)]
  }

  /** Draws the text box into a fresh card-sized image. */
  method DrawTextBox(notes: string, flavour: string) returns (image: Image)
    ensures fresh(image) && image.width == CardX && image.height == CardY
    ensures image.marks == TextBoxMarks(notes, flavour)
  {
    image := new Image(CardX, CardY);
    image.Draw(Box(TextBox));
    image.Draw(Text(notes, NotesAnchor, "lt", TextBoxFontSize));
  }

  /** Two units that differ only in flavour get the same text box; the notes start 10 pixels inside its corner. */
  lemma TextBoxIgnoresFlavour(notes: string, flavour1: string, flavour2: string)
    ensures TextBoxMarks(notes, flavour1) == TextBoxMarks(notes, flavour2)
    ensures NotesAnchor == HalfPoint(2 * (TextBox.left + TextBoxMargin), 2 * (TextBox.top + TextBoxMargin))
  {
  }

  // ---------------------------------------------------------------------------
  // All overlays together

  /** The two rectangles do not overlap or touch. */
  predicate Apart(a: Rect, b: Rect) {
    a.right < b.left || b.right < a.left || a.bottom < b.top || b.bottom < a.top
  }

  /** The name, stat and text boxes and the flag each fit the card, and no two of them meet. */
  lemma OverlaysFitCanvas()
    ensures Within(NameBox, Canvas) && Within(StatBox, Canvas) && Within(TextBox, Canvas) && Within(FlagBox, Canvas)
    ensures Apart(NameBox, StatBox) && Apart(NameBox, TextBox) && Apart(NameBox, FlagBox)
    ensures Apart(StatBox, TextBox) && Apart(StatBox, FlagBox) && Apart(TextBox, FlagBox)
  {
  }
}
