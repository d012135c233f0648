/**
 * The raw-text record extractor: a text export is read line by line, every
 * nine cleaned lines form one raw record `(name, arm, move, combat, hits,
 * save, _, _, notes)`, and each raw record becomes one unit record after
 * name/arm disambiguation, the split of the combat field and the clean-up of
 * the notes placeholder.
 */
module Converter {
  import opened Wrappers
  import opened Strings

  /**
   * A small dictionary written out entry by entry. A Python dictionary literal
   * keeps the last entry of a repeated key; the tables here have distinct keys,
   * so looking up the first entry agrees with it.
   */
  datatype Table<K, V> = Empty | Item(key: K, value: V, rest: Table<K, V>)

  /** The value of the first entry for `key`, if any: a dictionary lookup. */
  function Lookup<K(==), V>(t: Table<K, V>, key: K): Option<V> {
    match t
    case Empty => None
    case Item(k, v, rest) => if k == key then Some(v) else Lookup(rest, key)
  }

  /** The entries of a table, in order. */
  function Entries<K, V>(t: Table<K, V>): seq<(K, V)> {
    match t
    case Empty => []
    case Item(k, v, rest) => [(k, v)] + Entries(rest)
  }

  /** `Lookup` finds a value exactly for the keys of the table, and the value it finds is paired with the key. */
  lemma {:induction false} LookupSpec<K, V>(t: Table<K, V>, key: K)
    ensures Lookup(t, key).None? <==> forall e :: e in Entries(t) ==> e.0 != key
    ensures Lookup(t, key).Some? ==> (key, Lookup(t, key).value) in Entries(t)
  {
    match t
    case Empty =>
    case Item(k, v, rest) =>
      LookupSpec(rest, key);
      assert Entries(t) == [(k, v)] + Entries(rest);
      assert forall e :: e in Entries(t) <==> e == (k, v) || e in Entries(rest);
  }

  /**
   * The display labels that, written before a parenthesised annotation, name
   * the unit's arm, with that arm, in the order the program lists them.
   */
  const ArmLabels: Table<string, string> :=
    Item("FAO", "fao",
    Item("FAC", "fac",
    Item("IFV unit", "ifv",
    Item("RR", "rr",
    Item("ATGW", "atgw",
    Item("Mortar", "mortar",
    Item("Bridging", "bridging",
    Item("Mine Clearer", "mine_clearer",
    Item("Infantry Upgrade", "infantry_upgrade",
    Item("SPG Unit", "spg",
    Item("SPAT Unit", "spat",
    Item("ATGW Unit", "atgw_unit",
    Item("AA", "aa",
    Item("SAM", "sam",
    Item("Attack Helicopter", "attack_helicopter",
    Item("Truck", "truck",
    Item("Helicopter", "transport_helicopter",
    Empty)))))))))))))))))

  /** The arm a display label names, if it is one of the listed labels. */
  function ArmFromName(first: string): Option<string> {
    Lookup(ArmLabels, first)
  }

  /** One emitted unit record, field for field as it is serialised. */
  datatype Record = Record(
    country: string,
    army: string,
    name: string,
    arm: string,
    move: string,
    attacks: string,
    range: string,
    hits: string,
    save: string,
    notes: string,
    flavour: string,
    images: seq<string>)

  datatype ConvertError =
    | FileNotFound
      /** `attacks, range_ = combat.split("/")` with more than one `/`: too many values to unpack. */
    | CombatUnpack(combat: string)

  /**
   * What the input path names in the file system: nothing, something that is
   * not a regular file (a directory, a fifo, a device), or a regular file,
   * given by the lines it reads as.
   */
  datatype Entry = Missing | NotRegularFile | RegularFile(lines: seq<string>)

  // ---------------------------------------------------------------------------
  // The name pattern ^(.*) \((.*)\)$

  /** `s` is `s[..p] + " (" + s[p + 2..|s| - 1] + ")"`: the pattern can split `s` at `p`. */
  predicate SplitsAt(s: string, p: int) {
    0 <= p && p + 3 <= |s| && s[p] == ' ' && s[p + 1] == '(' && s[|s| - 1] == ')'
  }

  /** The largest `q <= p` at which the pattern can split `s`, or -1 if there is none. */
  function LastSplit(s: string, p: int): (q: int)
    requires -1 <= p < |s|
    ensures -1 <= q <= p
    ensures q >= 0 ==> SplitsAt(s, q)
    decreases p + 1
  {
    if p < 0 then -1 else if SplitsAt(s, p) then p else LastSplit(s, p - 1)
  }

  /** No split point lies between the one found and the starting point. */
  lemma {:induction false} LastSplitIsLast(s: string, p: int)
    requires -1 <= p < |s|
    ensures forall k :: LastSplit(s, p) < k <= p ==> !SplitsAt(s, k)
    decreases p + 1
  {
    if p >= 0 && !SplitsAt(s, p) {
      LastSplitIsLast(s, p - 1);
    }
  }

  /**
   * `NAME_PATTERN.match(s)` with its two groups. Both groups are `.*`, which
   * matches any newline-free text, and the first one is greedy, so the match
   * splits at the last `" ("` that leaves room for the closing parenthesis.
   */
  function MatchName(s: string): (m: Option<(string, string)>)
    requires '\n' !in s
  {
    var q := LastSplit(s, |s| - 1);
    if q < 0 then None else Some((s[..q], s[q + 2..|s| - 1]))
  }

  /** `s` reads as `first (second)`: one of the ways the pattern, ignoring greediness, can match. */
  predicate Decomposes(s: string, first: string, second: string) {
    s == first + " (" + second + ")"
  }

  lemma DecomposesAt(s: string, first: string, second: string)
    ensures Decomposes(s, first, second) <==>
      SplitsAt(s, |first|) && first == s[..|first|] && second == s[|first| + 2..|s| - 1]
  {
    if Decomposes(s, first, second) {
      assert s[|first|] == ' ' && s[|first| + 1] == '(';
      assert s[..|first|] == first;
      assert s[|first| + 2..|s| - 1] == second;
    }
    if SplitsAt(s, |first|) && first == s[..|first|] && second == s[|first| + 2..|s| - 1] {
      assert s == s[..|first|] + " (" + s[|first| + 2..|s| - 1] + ")";
    }
  }

  /**
   * The regular expression's meaning: it matches `s` with groups `(first,
   * second)` exactly when `s` reads as `first (second)` and no other reading
   * has a longer `first`.
   */
  lemma MatchNameIsGreedyMatch(s: string, first: string, second: string)
    requires '\n' !in s
    ensures MatchName(s) == Some((first, second)) <==>
      Decomposes(s, first, second) &&
      forall f, g :: Decomposes(s, f, g) ==> |f| <= |first|
  {
    var q := LastSplit(s, |s| - 1);
    LastSplitIsLast(s, |s| - 1);
    DecomposesAt(s, first, second);
    forall f, g | Decomposes(s, f, g) ensures SplitsAt(s, |f|) && |f| <= q {
      DecomposesAt(s, f, g);
    }
    if MatchName(s) == Some((first, second)) {
      assert |first| == q;
    }
    if Decomposes(s, first, second) && forall f, g :: Decomposes(s, f, g) ==> |f| <= |first| {
      DecomposesAt(s, s[..q], s[q + 2..|s| - 1]);
      assert Decomposes(s, s[..q], s[q + 2..|s| - 1]);
    }
  }

  /** The pattern does not match at all exactly when `s` cannot be read as `first (second)`. */
  lemma MatchNameNone(s: string)
    requires '\n' !in s
    ensures MatchName(s).None? <==> forall f, g :: !Decomposes(s, f, g)
  {
    LastSplitIsLast(s, |s| - 1);
    forall f, g | Decomposes(s, f, g) ensures MatchName(s).Some? {
      DecomposesAt(s, f, g);
    }
    if MatchName(s).Some? {
      var (f, g) := MatchName(s).value;
      DecomposesAt(s, f, g);
    }
  }

  // ---------------------------------------------------------------------------
  // The three per-record rules

  /** `arm.lower() == "command"`. */
  predicate IsCommand(arm: string) {
    Lower(arm) == "command"
  }

  /**
   * Name/arm disambiguation; returns the new `(name, arm)`, before the arm is
   * lower-cased.
   */
  function Disambiguate(name: string, arm: string): (r: (string, string))
    requires '\n' !in name
  {
    match MatchName(name)
    case None => (name, arm)
    case Some((first, second)) =>
      if ArmFromName(first).Some? then
        (name, ArmFromName(first).value)
      else if ',' in second then
        var c := FirstIndex(second, ',');
        (Strip(second[c + 1..]), Strip(second[..c]))
      else if !IsCommand(arm) then
        (second, arm)
      else
        (name, arm)
  }

  /** A known arm label before the parentheses sets the arm and keeps the full name. */
  lemma DisambiguateArmLabel(name: string, arm: string, first: string, second: string)
    requires '\n' !in name
    requires Decomposes(name, first, second) && forall f, g :: Decomposes(name, f, g) ==> |f| <= |first|
    requires ArmFromName(first).Some?
    ensures Disambiguate(name, arm) == (name, ArmFromName(first).value)
  {
    MatchNameIsGreedyMatch(name, first, second);
  }

  /**
   * Otherwise a comma inside the parentheses splits them into the arm (before
   * the first comma) and the name (after it), both stripped.
   */
  lemma DisambiguateComma(name: string, arm: string, first: string, second: string, c: nat)
    requires '\n' !in name
    requires Decomposes(name, first, second) && forall f, g :: Decomposes(name, f, g) ==> |f| <= |first|
    requires ArmFromName(first).None?
    requires c < |second| && second[c] == ',' && ',' !in second[..c]
    ensures Disambiguate(name, arm) == (Strip(second[c + 1..]), Strip(second[..c]))
    ensures IsTrimOf(Disambiguate(name, arm).0, second[c + 1..])
    ensures IsTrimOf(Disambiguate(name, arm).1, second[..c])
  {
    MatchNameIsGreedyMatch(name, first, second);
    FirstIndexAt(second, ',', c);
    StripTrims(second[c + 1..]);
    StripTrims(second[..c]);
  }

  /**
   * Otherwise the text in parentheses becomes the name, unless the unit's arm
   * is "command" (in any letter case), whose name keeps its annotation.
   */
  lemma DisambiguateAnnotation(name: string, arm: string, first: string, second: string)
    requires '\n' !in name
    requires Decomposes(name, first, second) && forall f, g :: Decomposes(name, f, g) ==> |f| <= |first|
    requires ArmFromName(first).None? && ',' !in second
    ensures !IsCommand(arm) ==> Disambiguate(name, arm) == (second, arm)
    ensures IsCommand(arm) ==> Disambiguate(name, arm) == (name, arm)
  {
    MatchNameIsGreedyMatch(name, first, second);
  }

  /** A name that does not read as `first (second)` leaves name and arm unchanged. */
  lemma DisambiguateNoMatch(name: string, arm: string)
    requires '\n' !in name
    requires forall f, g :: !Decomposes(name, f, g)
    ensures Disambiguate(name, arm) == (name, arm)
  {
    MatchNameNone(name);
  }

  /**
   * The combat field split into `(attacks, range)`: no `/` gives range "-",
   * one `/` splits around it, more than one fails to unpack.
   */
  function SplitCombat(combat: string): (r: Result<(string, string), ConvertError>) {
    if '/' in combat then
      var parts := SplitOn(combat, '/');
      if |parts| == 2 then Ok((parts[0], parts[1])) else Err(CombatUnpack(combat))
    else
      Ok((combat, "-"))
  }

  /**
   * The split succeeds exactly when there is at most one `/`; without one the
   * range is "-", with one the two halves are what lies on either side.
   */
  lemma SplitCombatSpec(combat: string)
    ensures var r := SplitCombat(combat);
      && (r.Ok? <==> Count(combat, '/') <= 1)
      && (Count(combat, '/') == 0 ==> r == Ok((combat, "-")))
      && (Count(combat, '/') == 1 ==>
            r.Ok? && combat == r.value.0 + "/" + r.value.1 && '/' !in r.value.0 && '/' !in r.value.1)
      && (r.Err? ==> r.error == CombatUnpack(combat))
  {
    var parts := SplitOn(combat, '/');
    SplitOnCount(combat, '/');
    if '/' in combat {
      if |parts| == 2 {
        SplitOnNoSeparator(combat, '/');
        SplitOnJoin(combat, '/');
        assert parts[1..] == [parts[1]];
      }
    } else {
      assert multiset(combat)['/'] == 0;
    }
  }

  /** The notes placeholder "-" means "no notes". */
  function CleanNotes(notes: string): string {
    if notes != "-" then notes else ""
  }

  // ---------------------------------------------------------------------------
  // Lines, blocks and records

  /** A line as read: newlines removed, then surrounding whitespace stripped. */
  function CleanLine(raw: string): (r: string)
    ensures '\n' !in r
  {
    var n := RemoveNewlines(raw);
    StripKeepsOut(n, '\n');
    Strip(n)
  }

  /** A cleaned line is the newline-free line with exactly its surrounding whitespace removed. */
  lemma CleanLineTrims(raw: string)
    ensures IsTrimOf(CleanLine(raw), RemoveNewlines(raw))
  {
    StripTrims(RemoveNewlines(raw));
  }

  /** `line.replace("\n", "")`. */
  function RemoveNewlines(s: string): (r: string)
    ensures '\n' !in r
    ensures '\n' !in s ==> r == s
    ensures |r| <= |s|
  {
    if s == [] then []
    else (if s[0] == '\n' then [] else [s[0]]) + RemoveNewlines(s[1..])
  }

  /** Removing newlines works piece by piece: the other characters keep their order. */
  lemma {:induction false} RemoveNewlinesAppend(a: string, b: string)
    ensures RemoveNewlines(a + b) == RemoveNewlines(a) + RemoveNewlines(b)
  {
    if a != [] {
      assert (a + b)[1..] == a[1..] + b;
      RemoveNewlinesAppend(a[1..], b);
    } else {
      assert a + b == b;
    }
  }

  function CleanLines(lines: seq<string>): (r: seq<string>)
    ensures |r| == |lines|
    ensures forall i :: 0 <= i < |lines| ==> r[i] == CleanLine(lines[i])
  {
    seq(|lines|, i requires 0 <= i < |lines| => CleanLine(lines[i]))
  }

  /** The record made of one group of nine cleaned lines. */
  function MakeRecord(country: string, army: string, block: seq<string>): (r: Result<Record, ConvertError>)
    requires |block| == 9 && '\n' !in block[0]
  {
    var (name, arm) := Disambiguate(block[0], block[1]);
    match SplitCombat(block[3])
    case Err(e) => Err(e)
    case Ok((attacks, range)) =>
      Ok(Record(country, army, name, Lower(arm), block[2], attacks, range, block[4], block[5],
                CleanNotes(block[8]), "", []))
  }

  /**
   * Fields map by position: 1 name, 2 arm, 3 move, 4 combat, 5 hits, 6 save,
   * 9 notes; the record fails only on a combat field with two or more `/`.
   */
  lemma MakeRecordFields(country: string, army: string, block: seq<string>)
    requires |block| == 9 && '\n' !in block[0]
    ensures var r := MakeRecord(country, army, block);
      && (r.Ok? <==> Count(block[3], '/') <= 1)
      && (r.Err? ==> r.error == CombatUnpack(block[3]))
      && (r.Ok? ==>
        && r.value.country == country && r.value.army == army
        && r.value.name == Disambiguate(block[0], block[1]).0
        && r.value.arm == Lower(Disambiguate(block[0], block[1]).1)
        && r.value.move == block[2] && r.value.hits == block[4] && r.value.save == block[5]
        && (r.value.attacks, r.value.range) == SplitCombat(block[3]).value
        && r.value.notes == CleanNotes(block[8])
        && r.value.flavour == "" && r.value.images == [])
  {
    SplitCombatSpec(block[3]);
  }

  /** All the values when every result is `Ok`, otherwise the first error. */
  function Collect<T, E>(rs: seq<Result<T, E>>): Result<seq<T>, E> {
    if rs == [] then Ok([])
    else
      match rs[0]
      case Err(e) => Err(e)
      case Ok(v) =>
        match Collect(rs[1..])
        case Err(e) => Err(e)
        case Ok(vs) => Ok([v] + vs)
  }

  lemma {:induction false} CollectOk<T, E>(rs: seq<Result<T, E>>, vs: seq<T>)
    requires Collect(rs) == Ok(vs)
    ensures |vs| == |rs|
    ensures forall k :: 0 <= k < |rs| ==> rs[k] == Ok(vs[k])
  {
    if rs != [] {
      CollectOk(rs[1..], vs[1..]);
    }
  }

  lemma {:induction false} CollectErr<T, E>(rs: seq<Result<T, E>>)
    ensures Collect(rs).Err? <==> exists k :: 0 <= k < |rs| && rs[k].Err?
  {
    if rs != [] {
      CollectErr(rs[1..]);
      if exists k :: 0 <= k < |rs| && rs[k].Err? {
        var k :| 0 <= k < |rs| && rs[k].Err?;
        if k > 0 { assert rs[1..][k - 1].Err?; }
      }
    }
  }

  /** One more result: an earlier error stays the outcome, otherwise its value is appended or its error is the outcome. */
  lemma {:induction false} CollectSnoc<T, E>(rs: seq<Result<T, E>>, r: Result<T, E>)
    ensures Collect(rs + [r]) ==
      match Collect(rs)
      case Err(e) => Err(e)
      case Ok(vs) => (match r case Ok(v) => Ok(vs + [v]) case Err(e) => Err(e))
  {
    if rs == [] {
      assert rs + [r] == [r] && [r][1..] == [];
      assert Collect([r][1..]) == Ok([]);
      match r
      case Ok(v) => assert [v] + [] == [] + [v];
      case Err(e) =>
    } else {
      assert (rs + [r])[0] == rs[0];
      assert (rs + [r])[1..] == rs[1..] + [r];
      CollectSnoc(rs[1..], r);
      match rs[0]
      case Err(e) =>
      case Ok(v0) =>
        match Collect(rs[1..])
        case Err(e) =>
        case Ok(vs') =>
          match r
          case Ok(v) => assert [v0] + (vs' + [v]) == [v0] + vs' + [v];
          case Err(e) =>
    }
  }

  /** An error among the first results is the outcome however many results follow. */
  lemma {:induction false} CollectErrPrefix<T, E>(rs: seq<Result<T, E>>, m: nat)
    requires m <= |rs| && Collect(rs[..m]).Err?
    ensures Collect(rs) == Collect(rs[..m])
    decreases |rs| - m
  {
    if m < |rs| {
      assert rs[..m + 1] == rs[..m] + [rs[m]];
      CollectSnoc(rs[..m], rs[m]);
      CollectErrPrefix(rs, m + 1);
    } else {
      assert rs[..m] == rs;
    }
  }

  /** The result of each complete group of nine cleaned lines, in order; a shorter tail is not a group. */
  function BlockResults(country: string, army: string, cl: seq<string>): (rs: seq<Result<Record, ConvertError>>)
    requires forall i :: 0 <= i < |cl| ==> '\n' !in cl[i]
    ensures |rs| == |cl| / 9
  {
    seq(|cl| / 9, k requires 0 <= k < |cl| / 9 =>
      assert '\n' !in cl[9 * k];
      MakeRecord(country, army, cl[9 * k..9 * k + 9]))
  }

  /** The records of a file's lines for the given country and army, or the first error. */
  function Records(country: string, army: string, lines: seq<string>): Result<seq<Record>, ConvertError> {
    Collect(BlockResults(country, army, CleanLines(lines)))
  }

  /** The outcome of one run of the extractor on the input path. */
  function ConvertSpec(file: Entry, country: string, army: string): Result<seq<Record>, ConvertError> {
    match file
    case RegularFile(lines) => Records(country, army, lines)
    case _ => Err(FileNotFound)
  }

  // ---------------------------------------------------------------------------
  // What the record list promises

  /**
   * A run on N lines emits floor(N / 9) records, in order, the k-th made of
   * lines 9k .. 9k + 8 alone.
   */
  lemma RecordsPerBlock(country: string, army: string, lines: seq<string>, rs: seq<Record>)
    requires Records(country, army, lines) == Ok(rs)
    ensures |rs| == |lines| / 9
    ensures forall k :: 0 <= k < |rs| ==> 9 * k + 9 <= |lines| && GroupMakes(country, army, lines, k, rs[k])
  {
    var cl := CleanLines(lines);
    var results := BlockResults(country, army, cl);
    CollectOk(results, rs);
    forall k | 0 <= k < |rs| ensures 9 * k + 9 <= |lines| && GroupMakes(country, army, lines, k, rs[k]) {
      DivBound(|lines|, k);
      GroupOfLines(country, army, lines, k);
    }
  }

  /** Lines `9 * k .. 9 * k + 8`, cleaned, make the record `r`. */
  predicate GroupMakes(country: string, army: string, lines: seq<string>, k: nat, r: Record)
    requires 9 * k + 9 <= |lines|
  {
    var block := CleanLines(lines[9 * k..9 * k + 9]);
    '\n' !in block[0] && MakeRecord(country, army, block) == Ok(r)
  }

  /** The result of group `k` depends on lines `9 * k .. 9 * k + 8` alone. */
  lemma GroupOfLines(country: string, army: string, lines: seq<string>, k: nat)
    requires 9 * k + 9 <= |lines|
    ensures var block := CleanLines(lines[9 * k..9 * k + 9]);
      '\n' !in block[0] && BlockResults(country, army, CleanLines(lines))[k] == MakeRecord(country, army, block)
  {
    var cl := CleanLines(lines);
    assert CleanLines(lines[9 * k..9 * k + 9]) == cl[9 * k..9 * k + 9];
    BlockResultAt(country, army, cl, k);
  }

  lemma DivBound(n: nat, k: nat)
    requires k < n / 9
    ensures 9 * k + 9 <= n
  {
  }

  /** A run fails exactly when some complete group's combat field holds two or more `/`. */
  lemma RecordsFail(country: string, army: string, lines: seq<string>)
    ensures Records(country, army, lines).Err? <==>
      exists k :: 0 <= k < |lines| / 9 && Count(CleanLine(lines[9 * k + 3]), '/') >= 2
  {
    var cl := CleanLines(lines);
    var results := BlockResults(country, army, cl);
    CollectErr(results);
    if Records(country, army, lines).Err? {
      var k :| 0 <= k < |results| && results[k].Err?;
      BlockFails(country, army, cl, k);
      assert Count(CleanLine(lines[9 * k + 3]), '/') >= 2;
    }
    if exists k :: 0 <= k < |lines| / 9 && Count(CleanLine(lines[9 * k + 3]), '/') >= 2 {
      var k :| 0 <= k < |lines| / 9 && Count(CleanLine(lines[9 * k + 3]), '/') >= 2;
      BlockFails(country, army, cl, k);
      assert results[k].Err?;
    }
  }

  lemma BlockFails(country: string, army: string, cl: seq<string>, k: nat)
    requires forall i :: 0 <= i < |cl| ==> '\n' !in cl[i]
    requires k < |cl| / 9
    ensures BlockResults(country, army, cl)[k].Err? <==> Count(cl[9 * k + 3], '/') >= 2
  {
    var block := cl[9 * k..9 * k + 9];
    assert block[3] == cl[9 * k + 3];
    MakeRecordFields(country, army, block);
  }

  lemma BlockArmLowered(country: string, army: string, cl: seq<string>, k: nat)
    requires forall i :: 0 <= i < |cl| ==> '\n' !in cl[i]
    requires k < |cl| / 9
    ensures var r := BlockResults(country, army, cl)[k]; r.Ok? ==> Lower(r.value.arm) == r.value.arm
  {
    var block := cl[9 * k..9 * k + 9];
    MakeRecordFields(country, army, block);
    LowerIdempotent(Disambiguate(block[0], block[1]).1);
  }

  /** A trailing group of fewer than nine lines adds nothing and cannot make the run fail. */
  lemma TrailingLinesIgnored(country: string, army: string, lines: seq<string>)
    ensures Records(country, army, lines) == Records(country, army, lines[..9 * (|lines| / 9)])
  {
    var whole := lines[..9 * (|lines| / 9)];
    var r1 := BlockResults(country, army, CleanLines(lines));
    var r2 := BlockResults(country, army, CleanLines(whole));
    assert |r1| == |r2|;
    forall k | 0 <= k < |r1| ensures r1[k] == r2[k] {
      assert CleanLines(lines)[9 * k..9 * k + 9] == CleanLines(whole)[9 * k..9 * k + 9];
    }
    assert r1 == r2;
  }

  /** Lines 7 and 8 of a group never influence its record. */
  lemma UnusedLinesIgnored(country: string, army: string, block: seq<string>, x: string, y: string)
    requires |block| == 9 && '\n' !in block[0]
    ensures MakeRecord(country, army, block) == MakeRecord(country, army, block[6 := x][7 := y])
  {
  }

  /** Every emitted arm is lower-case: lower-casing it again changes nothing. */
  lemma RecordArmsLowered(country: string, army: string, lines: seq<string>, rs: seq<Record>)
    requires Records(country, army, lines) == Ok(rs)
    ensures forall k :: 0 <= k < |rs| ==> Lower(rs[k].arm) == rs[k].arm
  {
    var cl := CleanLines(lines);
    var results := BlockResults(country, army, cl);
    CollectOk(results, rs);
    forall k | 0 <= k < |rs| ensures Lower(rs[k].arm) == rs[k].arm {
      BlockArmLowered(country, army, cl, k);
    }
  }

  // ---------------------------------------------------------------------------
  // The extractor's main loop

  /** The disambiguation step of the loop body, reassigning name and arm. */
  method ReassignNameAndArm(name0: string, arm0: string) returns (name: string, arm: string)
    requires '\n' !in name0
    ensures (name, arm) == Disambiguate(name0, arm0)
  {
    name, arm := name0, arm0;
    var nameMatch := MatchName(name);
    if nameMatch.Some? {
      var first, second := nameMatch.value.0, nameMatch.value.1;
      var labelled := ArmFromName(first);
      if labelled.Some? {
        arm := labelled.value;
      } else if ',' in second {
        var c := FirstIndex(second, ',');
        arm, name := Strip(second[..c]), Strip(second[c + 1..]);
      } else if !IsCommand(arm) {
        name := second;
      }
    }
  }

  /**
   * The body of the loop for a full buffer: unpack the nine fields, reassign
   * name and arm by the disambiguation rules, split the combat field and
   * build the record.
   */
  method ConvertBlock(stats: seq<string>, country: string, army: string) returns (result: Result<Record, ConvertError>)
    requires |stats| == 9 && '\n' !in stats[0]
    ensures result == MakeRecord(country, army, stats)
  {
    var name, arm, move, combat, hits, save, notes := stats[0], stats[1], stats[2], stats[3], stats[4], stats[5], stats[8];

    name, arm := ReassignNameAndArm(name, arm);
    assert (name, arm) == Disambiguate(stats[0], stats[1]);

    var attacks, range;
    if '/' in combat {
      var parts := SplitOn(combat, '/');
      if |parts| != 2 {
        assert SplitCombat(combat).Err?;
        return Err(CombatUnpack(combat));
      }
      attacks, range := parts[0], parts[1];
    } else {
      attacks, range := combat, "-";
    }
    assert SplitCombat(combat) == Ok((attacks, range));

    return Ok(Record(country, army, name, Lower(arm), move, attacks, range, hits, save,
                     if notes != "-" then notes else "", "", []));
  }


  /**
   * The extractor's loop as a function of its state, over the cleaned lines
   * `cl`: `index` lines read so far, the buffer `stats` of the unfinished
   * group and the records `data` emitted so far. The loop tests `index % 9 ==
   * 0` after reading a line; with the buffer emptied at each such point that
   * is the buffer holding nine lines, which is the test written here.
   */
  function Run(country: string, army: string, cl: seq<string>, index: nat, stats: seq<string>, data: seq<Record>)
    : Result<seq<Record>, ConvertError>
    requires forall i :: 0 <= i < |cl| ==> '\n' !in cl[i]
    requires index <= |cl| && |stats| < 9 && (stats != [] ==> '\n' !in stats[0])
    decreases |cl| - index
  {
    if index == |cl| then Ok(data)
    else
      var stats' := stats + [cl[index]];
      if |stats'| == 9 then
        match MakeRecord(country, army, stats')
        case Err(e) => Err(e)
        case Ok(r) => Run(country, army, cl, index + 1, [], data + [r])
      else
        Run(country, army, cl, index + 1, stats', data)
  }

  /**
   * From any state the loop reaches, it ends with the records of all the
   * groups. The state after reading `j` lines of group `m` holds those lines
   * in the buffer and the records of groups `0 .. m - 1` in `data`.
   */
  lemma {:induction false} RunFrom(country: string, army: string, cl: seq<string>, index: nat, m: nat, j: nat, stats: seq<string>, data: seq<Record>)
    requires forall i :: 0 <= i < |cl| ==> '\n' !in cl[i]
    requires index == 9 * m + j && j < 9 && index <= |cl|
    requires stats == cl[9 * m..index]
    requires Collect(BlockResults(country, army, cl)[..m]) == Ok(data)
    ensures Run(country, army, cl, index, stats, data) == Collect(BlockResults(country, army, cl))
    decreases |cl| - index, 1
  {
    if index == |cl| {
      RunFromEnd(country, army, cl, m, j, stats, data);
    } else if j == 8 {
      RunFromGroupEnd(country, army, cl, index, m, stats, data);
    } else {
      RunFromInGroup(country, army, cl, index, m, j, stats, data);
    }
  }

  /** At the end of the lines the records emitted are those of all the groups. */
  lemma RunFromEnd(country: string, army: string, cl: seq<string>, m: nat, j: nat, stats: seq<string>, data: seq<Record>)
    requires forall i :: 0 <= i < |cl| ==> '\n' !in cl[i]
    requires |cl| == 9 * m + j && j < 9
    requires stats == cl[9 * m..|cl|]
    requires Collect(BlockResults(country, army, cl)[..m]) == Ok(data)
    ensures Run(country, army, cl, |cl|, stats, data) == Collect(BlockResults(country, army, cl))
  {
    var results := BlockResults(country, army, cl);
    LastGroup(m, j, |cl|);
    assert results[..m] == results;
  }

  /** The step of `RunFrom` that reads a line before the last of its group into the buffer. */
  lemma {:induction false} RunFromInGroup(country: string, army: string, cl: seq<string>, index: nat, m: nat, j: nat, stats: seq<string>, data: seq<Record>)
    requires forall i :: 0 <= i < |cl| ==> '\n' !in cl[i]
    requires index == 9 * m + j && j < 8 && index < |cl|
    requires stats == cl[9 * m..index]
    requires Collect(BlockResults(country, army, cl)[..m]) == Ok(data)
    ensures Run(country, army, cl, index, stats, data) == Collect(BlockResults(country, army, cl))
    decreases |cl| - index, 0
  {
    assert stats + [cl[index]] == cl[9 * m..index + 1];
    RunFrom(country, army, cl, index + 1, m, j + 1, stats + [cl[index]], data);
  }

  /** The step of `RunFrom` that reads the last line of group `m` and emits its record or fails with its error. */
  lemma {:induction false} RunFromGroupEnd(country: string, army: string, cl: seq<string>, index: nat, m: nat, stats: seq<string>, data: seq<Record>)
    requires forall i :: 0 <= i < |cl| ==> '\n' !in cl[i]
    requires index == 9 * m + 8 && index < |cl|
    requires stats == cl[9 * m..index]
    requires Collect(BlockResults(country, army, cl)[..m]) == Ok(data)
    ensures Run(country, army, cl, index, stats, data) == Collect(BlockResults(country, army, cl))
    decreases |cl| - index, 0
  {
    var block := stats + [cl[index]];
    assert block == cl[9 * m..9 * m + 9];
    CompleteGroup(country, army, cl, m, block, data);
    match MakeRecord(country, army, block)
    case Err(e) =>
      CollectErrPrefix(BlockResults(country, army, cl), m + 1);
    case Ok(r) =>
      RunFrom(country, army, cl, index + 1, m + 1, 0, [], data + [r]);
  }

  /** Completing group `m` extends the records of the groups before it by its own, or fails with its error. */
  lemma CompleteGroup(country: string, army: string, cl: seq<string>, m: nat, block: seq<string>, data: seq<Record>)
    requires forall i :: 0 <= i < |cl| ==> '\n' !in cl[i]
    requires 9 * m + 9 <= |cl| && block == cl[9 * m..9 * m + 9]
    requires Collect(BlockResults(country, army, cl)[..m]) == Ok(data)
    ensures '\n' !in block[0]
    ensures Collect(BlockResults(country, army, cl)[..m + 1]) ==
      match MakeRecord(country, army, block)
      case Err(e) => Err(e)
      case Ok(r) => Ok(data + [r])
  {
    var results := BlockResults(country, army, cl);
    BlockResultAt(country, army, cl, m);
    assert results[..m + 1] == results[..m] + [results[m]];
    CollectSnoc(results[..m], results[m]);
  }

  /** The record produced for group `k`. */
  lemma BlockResultAt(country: string, army: string, cl: seq<string>, k: nat)
    requires forall i :: 0 <= i < |cl| ==> '\n' !in cl[i]
    requires 9 * k + 9 <= |cl|
    ensures '\n' !in cl[9 * k]
    ensures BlockResults(country, army, cl)[k] == MakeRecord(country, army, cl[9 * k..9 * k + 9])
  {
  }

  /** A file of `9 * m + j` lines, `j < 9`, holds `m` complete groups. */
  lemma LastGroup(m: nat, j: nat, n: nat)
    requires j < 9 && n == 9 * m + j
    ensures n / 9 == m
  {
  }

  /** Started on an empty buffer, the loop produces exactly the records of the file. */
  lemma RunIsRecords(country: string, army: string, lines: seq<string>)
    ensures Run(country, army, CleanLines(lines), 0, [], []) == Records(country, army, lines)
  {
    RunFrom(country, army, CleanLines(lines), 0, 0, 0, [], []);
  }

  /** Reading one more line completes a group exactly when the buffer held eight lines. */
  lemma NextLine(index: nat)
    ensures index - index % 9 == 9 * (index / 9)
    ensures (index + 1) % 9 == 0 <==> index % 9 == 8
    ensures (index + 1) % 9 == 0 ==> (index + 1) / 9 == index / 9 + 1
    ensures (index + 1) % 9 != 0 ==> (index + 1) % 9 == index % 9 + 1 && (index + 1) / 9 == index / 9
  {
  }

  /**
   * One run of the extractor: refuse a path that is not a regular file, then
   * accumulate cleaned lines in a buffer and turn every full buffer of nine
   * lines into one record.
   */
  method Convert(file: Entry, country: string, army: string) returns (result: Result<seq<Record>, ConvertError>)
    ensures result == ConvertSpec(file, country, army)
  {
    if !file.RegularFile? {
      return Err(FileNotFound);
    }
    var lines := file.lines;
    ghost var cl := CleanLines(lines);
    RunIsRecords(country, army, lines);
    var data: seq<Record> := [];
    var stats: seq<string> := [];
    var index := 0;
    while index < |lines|
      invariant index <= |lines| && |stats| == index % 9 && |stats| < 9 && (stats != [] ==> '\n' !in stats[0])
      invariant Run(country, army, cl, index, stats, data) == Records(country, army, lines)
    {
      NextLine(index);
      assert cl[index] == CleanLine(lines[index]);
      stats := stats + [CleanLine(lines[index])];
      index := index + 1;
      if index % 9 == 0 {
        var record := ConvertBlock(stats, country, army);
        if record.Err? {
          return Err(record.error);
        }
        stats := [];
        data := data + [record.value];
      }
    }
    return Ok(data);
  }
}
