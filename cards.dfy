/**
 * Card generation: a unit read from the units file, the images its cards are
 * made from, and the cards written for it, one per image, into the
 * `generated` folder beside the background pictures.
 */
module Cards {
  import opened Wrappers
  import opened Strings
  import opened Paths
  import opened CardLayout

  /** A unit as deserialised from the units file, its images rebased under the background folder. */
  class Unit {
    var country: string
    var army: string
    var name: string
    var arm: string
    var move: string
    var attacks: string
    var range: string
    var hits: string
    var save: string
    var notes: string
    var flavour: string
    var images: seq<Path>

    /**
     * Sets the fields as deserialised, then rebases every image under the
     * background folder.
     */
    constructor (folder: Path, country: string, army: string, name: string, arm: string, move: string,
                 attacks: string, range: string, hits: string, save: string, notes: string, flavour: string,
                 images: seq<Path>)
      ensures this.country == country && this.army == army && this.name == name && this.arm == arm
      ensures this.move == move && this.attacks == attacks && this.range == range
      ensures this.hits == hits && this.save == save && this.notes == notes && this.flavour == flavour
      ensures this.images == Rebased(folder, images)
    {
      this.country := country;
      this.army := army;
      this.name := name;
      this.arm := arm;
      this.move := move;
      this.attacks := attacks;
      this.range := range;
      this.hits := hits;
      this.save := save;
      this.notes := notes;
      this.flavour := flavour;
      this.images := images;
      new;
      this.images := Rebased(folder, this.images);
    }

    /** The name with every space replaced by an underscore. */
    function CamelcaseName(): (r: string)
      reads this
      ensures |r| == |name| && ' ' !in r
      ensures forall i :: 0 <= i < |name| && name[i] != ' ' ==> r[i] == name[i]
      ensures forall i :: 0 <= i < |name| && name[i] == ' ' ==> r[i] == '_'
    {
      ReplaceChar(name, ' ', '_')
    }
  }

  /** Each image joined onto the background folder, in order. */
  function Rebased(folder: Path, images: seq<Path>): (r: seq<Path>)
    ensures |r| == |images|
  {
    seq(|images|, i requires 0 <= i < |images| => Join(folder, images[i]))
  }

  /**
   * A relative image ends up under the folder, with its own components after
   * the folder's; an absolute one is kept.
   */
  lemma RebasedSpec(folder: Path, images: seq<Path>, i: nat)
    requires i < |images|
    ensures images[i].absolute ==> Rebased(folder, images)[i] == images[i]
    ensures !images[i].absolute ==>
      && Rebased(folder, images)[i].absolute == folder.absolute
      && Rebased(folder, images)[i].parts[..|folder.parts|] == folder.parts
      && Rebased(folder, images)[i].parts[|folder.parts|..] == images[i].parts
  {
    JoinSpec(folder, images[i]);
  }

  /** A name without underscores is recovered from its camel-case form. */
  lemma CamelcaseRoundTrip(u: Unit)
    requires '_' !in u.name
    ensures ReplaceChar(u.CamelcaseName(), '_', ' ') == u.name
  {
    var r := u.CamelcaseName();
    var back := ReplaceChar(r, '_', ' ');
    assert |back| == |u.name|;
    forall i | 0 <= i < |u.name| ensures back[i] == u.name[i] {
      if u.name[i] == ' ' {
        assert r[i] == '_';
      } else {
        assert u.name[i] != '_' && r[i] == u.name[i];
      }
    }
  }

  // ---------------------------------------------------------------------------
  // Output files

  /** `"_".join([COUNTRY, camel_name, str(index + 1)]) + ".png"`. */
  function OutputName(country: string, camelName: string, index: nat): string {
    Upper(country) + "_" + camelName + "_" + NatToString(index + 1) + ".png"
  }

  /** The card for image `index` of a unit is `<folder>/generated/<output name>`. */
  function CardPath(folder: Path, country: string, camelName: string, index: nat): Path {
    Join(Join(folder, Path(false, ["generated"])), Path(false, [OutputName(country, camelName, index)]))
  }

  /** The cards of one unit have pairwise distinct names: the number after the name tells them apart. */
  lemma OutputNamesDistinct(country: string, camelName: string, i: nat, j: nat)
    requires OutputName(country, camelName, i) == OutputName(country, camelName, j)
    ensures i == j
  {
    var prefix := Upper(country) + "_" + camelName + "_";
    var s := OutputName(country, camelName, i);
    assert s == prefix + NatToString(i + 1) + ".png";
    assert s == prefix + NatToString(j + 1) + ".png";
    assert |NatToString(i + 1)| == |s| - |prefix| - 4 == |NatToString(j + 1)|;
    assert NatToString(i + 1) == s[|prefix|..|s| - 4];
    assert NatToString(j + 1) == s[|prefix|..|s| - 4];
    NatToStringInjective(i + 1, j + 1);
  }

  /** The card paths of one unit are pairwise distinct and all lie in the `generated` subfolder. */
  lemma CardPathsDistinct(folder: Path, country: string, camelName: string, i: nat, j: nat)
    ensures CardPath(folder, country, camelName, i) == CardPath(folder, country, camelName, j) <==> i == j
    ensures CardPath(folder, country, camelName, i)
      == Path(folder.absolute, folder.parts + ["generated", OutputName(country, camelName, i)])
  {
    var gen := Join(folder, Path(false, ["generated"]));
    assert gen.parts + [OutputName(country, camelName, i)] == folder.parts + ["generated", OutputName(country, camelName, i)];
    if CardPath(folder, country, camelName, i) == CardPath(folder, country, camelName, j) {
      assert (gen.parts + [OutputName(country, camelName, i)])[|gen.parts|] == OutputName(country, camelName, i);
      assert (gen.parts + [OutputName(country, camelName, j)])[|gen.parts|] == OutputName(country, camelName, j);
      OutputNamesDistinct(country, camelName, i, j);
    }
  }

  // ---------------------------------------------------------------------------
  // The layers of a card

  /**
   * The image files the generator finds: the background pictures that exist,
   * the flag files in the flag folder, and the icon files in the unit-icon
   * and stat-icon folders with the size each has once cropped and scaled.
   */
  datatype Assets = Assets(
    pictures: set<Path>,
    flags: set<string>,
    unitIcons: map<string, Size>,
    statIcons: map<string, Size>)

  /** The background picture fitted to the card, if it can be opened. */
  function FitBackground(infile: Path, pictures: set<Path>): Result<Layer, CardError> {
    if infile in pictures then Ok(Fitted(infile)) else Err(PictureMissing(infile))
  }

  /** The flag file of a country in the flag folder. */
  function FlagFile(country: string): string {
    Upper(country) + ".png"
  }

  /** The country's flag resized to 64 x 64, if its file exists. */
  function GetFlag(country: string, flags: set<string>): Result<Layer, CardError> {
    if FlagFile(country) in flags then Ok(Flag(FlagFile(country), FlagSide)) else Err(FlagMissing(country))
  }

  /**
   * The card for one image: the five layers, each made in turn (the first
   * that cannot be made is the error), pasted in order over a blank card: the
   * fitted background, the flag at (964, 14), then the name, stat and text
   * overlays.
   */
  function CardMarks(u: Unit, infile: Path, assets: Assets): Result<seq<Mark>, CardError>
    reads u
  {
    match FitBackground(infile, assets.pictures)
    case Err(e) => Err(e)
    case Ok(background) =>
      match GetFlag(u.country, assets.flags)
      case Err(e) => Err(e)
      case Ok(flag) =>
        match NameBoxMarks(u.name, u.arm, assets.unitIcons)
        case Err(e) => Err(e)
        case Ok(nameBox) =>
          match StatBoxMarks([u.move, u.attacks, u.range, u.hits, u.save], assets.statIcons)
          case Err(e) => Err(e)
          case Ok(statBox) =>
            Ok([Paste(background, Point(0, 0), false),
                Paste(flag, FlagAt, true),
                Paste(Overlay(nameBox), Point(0, 0), true),
                Paste(Overlay(statBox), Point(0, 0), true),
                Paste(Overlay(TextBoxMarks(u.notes, u.flavour)), Point(0, 0), true)])
  }

  /** Every file a card needs is there. */
  predicate HasAllFiles(u: Unit, infile: Path, assets: Assets)
    reads u
  {
    && infile in assets.pictures
    && FlagFile(u.country) in assets.flags
    && UnitIconFile(u.arm) in assets.unitIcons
    && forall j :: 0 <= j < 5 ==> StatNames[j] + ".png" in assets.statIcons
  }

  /**
   * A card can be made exactly when every file it needs is there; the
   * background goes at the bottom, unmasked, and every other layer over it
   * through its own transparency. Otherwise the error is the first missing
   * file, in the order background, flag, unit icon, stat icons.
   */
  lemma CardMarksSpec(u: Unit, infile: Path, assets: Assets)
    ensures CardMarks(u, infile, assets).Ok? <==> HasAllFiles(u, infile, assets)
    ensures CardMarks(u, infile, assets).Ok? ==>
      var ms := CardMarks(u, infile, assets).value;
      && |ms| == 5
      && ms[0] == Paste(Fitted(infile), Point(0, 0), false)
      && ms[1] == Paste(Flag(FlagFile(u.country), 64), Point(964, 14), true)
      && ms[2] == Paste(Overlay(NameBoxMarks(u.name, u.arm, assets.unitIcons).value), Point(0, 0), true)
      && ms[3] == Paste(Overlay(StatBoxMarks([u.move, u.attacks, u.range, u.hits, u.save], assets.statIcons).value), Point(0, 0), true)
      && ms[4] == Paste(Overlay(TextBoxMarks(u.notes, u.flavour)), Point(0, 0), true)
      && forall k :: 1 <= k < 5 ==> ms[k].Paste? && ms[k].masked
    ensures infile !in assets.pictures ==> CardMarks(u, infile, assets) == Err(PictureMissing(infile))
    ensures infile in assets.pictures && FlagFile(u.country) !in assets.flags ==>
      CardMarks(u, infile, assets) == Err(FlagMissing(u.country))
    ensures infile in assets.pictures && FlagFile(u.country) in assets.flags && UnitIconFile(u.arm) !in assets.unitIcons ==>
      CardMarks(u, infile, assets) == Err(UnitIconMissing(u.arm))
    ensures (infile in assets.pictures && FlagFile(u.country) in assets.flags && UnitIconFile(u.arm) in assets.unitIcons
      && !HasAllFiles(u, infile, assets)) ==>
      exists j :: (0 <= j < 5 && StatNames[j] + ".png" !in assets.statIcons
        && (forall l :: 0 <= l < j ==> StatNames[l] + ".png" in assets.statIcons)
        && CardMarks(u, infile, assets) == Err(StatIconMissing(StatNames[j])))
  {
    StatIconsFound(0, assets.statIcons, []);
    if StatIcons(0, assets.statIcons, []).Err? {
      StatIconsMissing(0, assets.statIcons, []);
    }
  }

  // ---------------------------------------------------------------------------
  // Writing the cards of a unit

  /** A file written: its path and the card saved in it. */
  datatype Saved = Saved(path: Path, card: seq<Mark>)

  /** The cards written, in order, and the error that stopped the generator, if any. */
  datatype Outcome = Outcome(saved: seq<Saved>, error: Option<CardError>)

  /** The files written so far, in order. */
  class Disk {
    var saved: seq<Saved>

    constructor ()
      ensures saved == []
    {
      saved := [];
    }

    method Save(path: Path, card: seq<Mark>)
      modifies this
      ensures saved == old(saved) + [Saved(path, card)]
    {
      saved := saved + [Saved(path, card)];
    }
  }

  /**
   * Saving the cards from number `index` on, after the files `saved`: card
   * `j` goes to `paths[j]`, until the cards run out or one could not be made,
   * whose error stops the saving.
   */
  function SaveAll(paths: seq<Path>, cards: seq<Result<seq<Mark>, CardError>>, index: nat, saved: seq<Saved>): Outcome
    requires |paths| == |cards| && index <= |cards|
    decreases |cards| - index
  {
    if index == |cards| then Outcome(saved, None)
    else
      match cards[index]
      case Err(e) => Outcome(saved, Some(e))
      case Ok(card) => SaveAll(paths, cards, index + 1, saved + [Saved(paths[index], card)])
  }

  /**
   * Saving keeps the files already saved and adds one per card up to the
   * first that could not be made (up to the last if there is none); the
   * error is that card's.
   */
  lemma {:induction false} SaveAllStops(paths: seq<Path>, cards: seq<Result<seq<Mark>, CardError>>, index: nat, saved: seq<Saved>)
    requires |paths| == |cards| && index <= |cards|
    ensures var o := SaveAll(paths, cards, index, saved);
      && |saved| <= |o.saved| && o.saved[..|saved|] == saved
      && index + |o.saved| - |saved| <= |cards|
      && (o.error.None? <==> index + |o.saved| - |saved| == |cards|)
      && (o.error.Some? ==> cards[index + |o.saved| - |saved|] == Err(o.error.value))
    decreases |cards| - index
  {
    if index < |cards| && cards[index].Ok? {
      var s := Saved(paths[index], cards[index].value);
      SaveAllStops(paths, cards, index + 1, saved + [s]);
      var o := SaveAll(paths, cards, index, saved);
      assert o.saved[..|saved|] == (o.saved[..|saved| + 1])[..|saved|];
    }
  }

  /** Each file added from card `index` on holds that card, under that card's path. */
  lemma {:induction false} SaveAllCards(paths: seq<Path>, cards: seq<Result<seq<Mark>, CardError>>, index: nat, saved: seq<Saved>)
    requires |paths| == |cards| && index <= |cards|
    ensures var o := SaveAll(paths, cards, index, saved);
      forall j :: index <= j < index + |o.saved| - |saved| ==>
        && j < |cards| && cards[j].Ok? && |saved| + j - index < |o.saved|
        && o.saved[|saved| + j - index] == Saved(paths[j], cards[j].value)
    decreases |cards| - index
  {
    if index < |cards| && cards[index].Ok? {
      var s := Saved(paths[index], cards[index].value);
      SaveAllCards(paths, cards, index + 1, saved + [s]);
      SaveAllStops(paths, cards, index + 1, saved + [s]);
      var o := SaveAll(paths, cards, index + 1, saved + [s]);
      assert o.saved[|saved|] == (o.saved[..|saved| + 1])[|saved|] == s;
    }
  }

  /** The path of the card of each image of the unit, in order. */
  function CardPaths(u: Unit, folder: Path): (paths: seq<Path>)
    reads u
    ensures |paths| == |u.images|
  {
    var n, country, camelName := |u.images|, u.country, u.CamelcaseName();
    seq(n, j requires 0 <= j < n => CardPath(folder, country, camelName, j))
  }

  /** The card of each image of the unit, or the error that prevents it, in order. */
  function CardsFor(u: Unit, assets: Assets): (cards: seq<Result<seq<Mark>, CardError>>)
    reads u
    ensures |cards| == |u.images|
  {
    seq(|u.images|, j requires 0 <= j < |u.images| reads u => CardMarks(u, u.images[j], assets))
  }

  /** What generating the cards of a unit writes, and the error that stops it, if any. */
  function Generated(u: Unit, folder: Path, assets: Assets): Outcome
    reads u
  {
    SaveAll(CardPaths(u, folder), CardsFor(u, assets), 0, [])
  }

  /** A run writes a prefix of the unit's cards, card `j` to its own path. */
  lemma CardsWritten(u: Unit, folder: Path, assets: Assets)
    ensures |Generated(u, folder, assets).saved| <= |u.images|
    ensures var o := Generated(u, folder, assets);
      forall j :: 0 <= j < |o.saved| ==>
        && CardMarks(u, u.images[j], assets).Ok?
        && o.saved[j] == Saved(CardPath(folder, u.country, u.CamelcaseName(), j), CardMarks(u, u.images[j], assets).value)
  {
    var o := Generated(u, folder, assets);
    var paths, cards := CardPaths(u, folder), CardsFor(u, assets);
    SaveAllStops(paths, cards, 0, []);
    SaveAllCards(paths, cards, 0, []);
    forall j | 0 <= j < |o.saved|
      ensures CardMarks(u, u.images[j], assets).Ok?
      ensures o.saved[j] == Saved(CardPath(folder, u.country, u.CamelcaseName(), j), CardMarks(u, u.images[j], assets).value)
    {
      assert cards[j] == CardMarks(u, u.images[j], assets) && paths[j] == CardPath(folder, u.country, u.CamelcaseName(), j);
    }
  }

  /**
   * A run writes every card exactly when every image has all the files its
   * card needs; otherwise it stops at the first image that lacks one, with
   * that image's error.
   */
  lemma CardsComplete(u: Unit, folder: Path, assets: Assets)
    ensures var o := Generated(u, folder, assets);
      && (o.error.None? <==> forall j :: 0 <= j < |u.images| ==> HasAllFiles(u, u.images[j], assets))
      && (o.error.None? ==> |o.saved| == |u.images|)
      && (o.error.Some? ==>
            && |o.saved| < |u.images|
            && (forall j :: 0 <= j < |o.saved| ==> HasAllFiles(u, u.images[j], assets))
            && !HasAllFiles(u, u.images[|o.saved|], assets)
            && CardMarks(u, u.images[|o.saved|], assets) == Err(o.error.value))
  {
    var o := Generated(u, folder, assets);
    var cards := CardsFor(u, assets);
    SaveAllStops(CardPaths(u, folder), cards, 0, []);
    CardsWritten(u, folder, assets);
    forall j | 0 <= j < |u.images| ensures CardMarks(u, u.images[j], assets).Ok? <==> HasAllFiles(u, u.images[j], assets) {
      CardMarksSpec(u, u.images[j], assets);
    }
    if o.error.Some? {
      assert cards[|o.saved|] == CardMarks(u, u.images[|o.saved|], assets);
    }
  }

  /** No two cards written for a unit share a path: each image gets its own file. */
  lemma CardsHaveDistinctPaths(u: Unit, folder: Path, assets: Assets)
    ensures var o := Generated(u, folder, assets);
      forall j, k :: 0 <= j < k < |o.saved| ==> o.saved[j].path != o.saved[k].path
  {
    var o := Generated(u, folder, assets);
    CardsWritten(u, folder, assets);
    forall j, k | 0 <= j < k < |o.saved| ensures o.saved[j].path != o.saved[k].path {
      CardPathsDistinct(folder, u.country, u.CamelcaseName(), j, k);
    }
  }

  /**
   * Without a flag file for the unit's country no card is written for it:
   * the first image already fails, on its background or on the flag.
   */
  lemma MissingFlagWritesNothing(u: Unit, folder: Path, assets: Assets)
    requires |u.images| > 0 && FlagFile(u.country) !in assets.flags
    ensures Generated(u, folder, assets).saved == []
    ensures Generated(u, folder, assets).error
      == Some(if u.images[0] in assets.pictures then FlagMissing(u.country) else PictureMissing(u.images[0]))
  {
    CardMarksSpec(u, u.images[0], assets);
    assert CardsFor(u, assets)[0] == CardMarks(u, u.images[0], assets);
  }

  /**
   * Without an icon file for the unit's arm no card is written for it; with
   * the first background and the flag there, the error names the arm.
   */
  lemma MissingUnitIconWritesNothing(u: Unit, folder: Path, assets: Assets)
    requires |u.images| > 0 && UnitIconFile(u.arm) !in assets.unitIcons
    ensures Generated(u, folder, assets).saved == []
    ensures Generated(u, folder, assets).error.Some?
    ensures u.images[0] in assets.pictures && FlagFile(u.country) in assets.flags ==>
      Generated(u, folder, assets).error == Some(UnitIconMissing(u.arm))
  {
    CardMarksSpec(u, u.images[0], assets);
    assert CardsFor(u, assets)[0] == CardMarks(u, u.images[0], assets);
  }

  /** A unit without images gets no card and no error, whatever files are missing: nothing is looked up. */
  lemma NoImagesNoCards(u: Unit, folder: Path, assets: Assets)
    requires |u.images| == 0
    ensures Generated(u, folder, assets) == Outcome([], None)
  {
  }

  /**
   * Makes the card for one image: creates the blank card, makes the five
   * layers, then pastes them in order.
   */
  method MakeCard(unit: Unit, infile: Path, assets: Assets) returns (r: Result<Image, CardError>)
    ensures CardMarks(unit, infile, assets).Err? ==> r == Err(CardMarks(unit, infile, assets).error)
    ensures CardMarks(unit, infile, assets).Ok? ==>
      && r.Ok? && fresh(r.value) && r.value.width == CardX && r.value.height == CardY
      && r.value.marks == CardMarks(unit, infile, assets).value
  {
    var cardImage := new Image(CardX, CardY);

    var background := FitBackground(infile, assets.pictures);
    if background.Err? {
      return Err(background.error);
    }
    var flag := GetFlag(unit.country, assets.flags);
    if flag.Err? {
      return Err(flag.error);
    }
    var nameBox := DrawNameBox(unit.name, unit.arm, assets.unitIcons);
    if nameBox.Err? {
      return Err(nameBox.error);
    }
    var statBox := DrawStatBox(unit.move, unit.attacks, unit.range, unit.hits, unit.save, assets.statIcons);
    if statBox.Err? {
      return Err(statBox.error);
    }
    var textBox := DrawTextBox(unit.notes, unit.flavour);

    var layers := [
      Paste(background.value, Point(0, 0), false),
      Paste(flag.value, FlagAt, true),
      Paste(Overlay(nameBox.value.marks), Point(0, 0), true),
      Paste(Overlay(statBox.value.marks), Point(0, 0), true),
      Paste(Overlay(textBox.marks), Point(0, 0), true)];
    for k := 0 to |layers|
      invariant cardImage.marks == layers[..k]
    {
      cardImage.Draw(layers[k]);
    }
    assert layers[..|layers|] == layers;
    return Ok(cardImage);
  }

  /** Writes one card per image of the unit, stopping at the first that cannot be made. */
  method GenerateCard(unit: Unit, folder: Path, assets: Assets, disk: Disk) returns (error: Option<CardError>)
    modifies disk
    ensures disk.saved == old(disk.saved) + Generated(unit, folder, assets).saved
    ensures error == Generated(unit, folder, assets).error
  {
    ghost var start := disk.saved;
    ghost var paths, cards := CardPaths(unit, folder), CardsFor(unit, assets);
    ghost var outcome := Generated(unit, folder, assets);
    assert disk.saved[|start|..] == [];
    for index := 0 to |unit.images|
      invariant |start| <= |disk.saved| && disk.saved[..|start|] == start
      invariant outcome == SaveAll(paths, cards, index, disk.saved[|start|..])
    {
      var card := MakeCard(unit, unit.images[index], assets);
      assert cards[index] == CardMarks(unit, unit.images[index], assets);
      if card.Err? {
        return Some(card.error);
      }
      ghost var before := disk.saved;
      disk.Save(CardPath(folder, unit.country, unit.CamelcaseName(), index), card.value.marks);
      assert disk.saved[|start|..] == before[|start|..] + [disk.saved[|disk.saved| - 1]];
    }
    assert disk.saved == start + disk.saved[|start|..];
    return None;
  }
}
