/** internal/deck/deck.go: a tarot deck's card tables. loadCardInfo builds the
    22 major and 4 x 14 minor cards, overlays the names and alternative text
    of a language file, and fills the remaining names with defaults; GetCard
    looks a card up by its dotted ID. */
module Decks {
  import opened Results
  import opened Strings
  import opened Cards
  import opened Files

  // =====================================================================
  // The fixed card lists
  // =====================================================================

  /** The numbers of the major arcana, "00" to "21". */
  const MajorNumbers: seq<string> := [
    "00", "01", "02", "03", "04", "05", "06", "07", "08", "09", "10",
    "11", "12", "13", "14", "15", "16", "17", "18", "19", "20", "21"]

  const Suits: seq<string> := ["wands", "cups", "swords", "pentacles"]

  const Ranks: seq<string> := [
    "ace", "two", "three", "four", "five", "six", "seven", "eight", "nine", "ten",
    "page", "knight", "queen", "king"]

  /** The build loop names major card i with fmt's %02d: card i is number
      MajorNumbers[i]. */
  lemma MajorNumberPadded(i: nat)
    requires i < 22
    ensures ZeroPad2(i) == MajorNumbers[i]
  {
    TwoDigits(i);
    assert i == 10 * (i / 10) + i % 10;
    assert i / 10 == 0 || i / 10 == 1 || i / 10 == 2;
  }

  /** No number, suit or rank holds the '.' that separates the parts of an
      ID, and no suit is empty. */
  lemma NoDotInNumbers()
    ensures forall k :: k in MajorNumbers ==> '.' !in k
  {
  }

  lemma NoDotInSuits()
    ensures forall s :: s in Suits ==> '.' !in s && s != ""
  {
  }

  lemma NoDotInRanks()
    ensures forall r :: r in Ranks ==> '.' !in r
  {
  }

  // =====================================================================
  // The tables built by loadCardInfo
  // =====================================================================

  /** The card the build loop makes for major number `number`. */
  function NewMajorCard(number: string): Card
  {
    Card("major_arcana" + "." + number, "", "major_arcana", number, "", "", "")
  }

  /** The card the build loop makes for `rank` of `suit`. */
  function NewMinorCard(suit: string, rank: string): Card
  {
    Card("minor_arcana" + "." + suit + "." + rank, "", "minor_arcana", "", suit, rank, "")
  }

  /** The major table after the first n iterations of the build loop. */
  function MajorTable(n: nat): map<string, Card>
    requires n <= |MajorNumbers|
  {
    map k | k in MajorNumbers[..n] :: NewMajorCard(k)
  }

  /** The table of `suit` after the first n ranks. */
  function SuitTable(suit: string, n: nat): map<string, Card>
    requires n <= |Ranks|
  {
    map r | r in Ranks[..n] :: NewMinorCard(suit, r)
  }

  /** The minor table after the first n suits. */
  function MinorTable(n: nat): map<string, map<string, Card>>
    requires n <= |Suits|
  {
    map s | s in Suits[..n] :: SuitTable(s, |Ranks|)
  }

  function MajorKeys(): set<string>
  {
    set k | k in MajorNumbers
  }

  function SuitKeys(): set<string>
  {
    set s | s in Suits
  }

  function RankKeys(): set<string>
  {
    set r | r in Ranks
  }

  /** Two cards agree on everything a language file or a default name does
      not change: ID, type, number, suit and rank. */
  predicate SameCard(c: Card, d: Card)
  {
    c.id == d.id && c.cardType == d.cardType && c.number == d.number && c.suit == d.suit && c.rank == d.rank
  }

  /** The major table holds exactly the numbers "00".."21", each with the
      card the build loop made for it (name and alternative text aside). */
  ghost predicate MajorShape(m: map<string, Card>)
  {
    && m.Keys == MajorKeys()
    && forall k :: k in m ==> SameCard(m[k], NewMajorCard(k))
  }

  ghost predicate SuitShape(suit: string, m: map<string, Card>)
  {
    && m.Keys == RankKeys()
    && forall r :: r in m ==> SameCard(m[r], NewMinorCard(suit, r))
  }

  /** The minor table holds exactly the four suits, each with exactly the
      fourteen ranks. */
  ghost predicate MinorShape(m: map<string, map<string, Card>>)
  {
    && m.Keys == SuitKeys()
    && forall s :: s in m ==> SuitShape(s, m[s])
  }

  /** One more iteration of the major build loop adds card i. */
  lemma MajorTableStep(i: nat)
    requires i < 22
    ensures MajorTable(i + 1) == MajorTable(i)[ZeroPad2(i) := NewMajorCard(ZeroPad2(i))]
  {
    MajorNumberPadded(i);
    assert MajorNumbers[..i + 1] == MajorNumbers[..i] + [MajorNumbers[i]];
  }

  lemma SuitTableStep(suit: string, r: nat)
    requires r < |Ranks|
    ensures SuitTable(suit, r + 1) == SuitTable(suit, r)[Ranks[r] := NewMinorCard(suit, Ranks[r])]
  {
    assert Ranks[..r + 1] == Ranks[..r] + [Ranks[r]];
  }

  lemma MinorTableStep(s: nat)
    requires s < |Suits|
    ensures MinorTable(s + 1) == MinorTable(s)[Suits[s] := SuitTable(Suits[s], |Ranks|)]
  {
    assert Suits[..s + 1] == Suits[..s] + [Suits[s]];
  }

  /** After the major build loop the table holds exactly "00".."21", card
      "nn" having ID "major_arcana.nn", type "major_arcana" and number "nn". */
  lemma MajorTableBuilt()
    ensures MajorShape(MajorTable(22))
  {
    assert MajorNumbers[..22] == MajorNumbers;
  }

  /** After the minor build loops the table holds exactly the four suits
      with the fourteen ranks each, card (s, r) having ID
      "minor_arcana.s.r", type "minor_arcana", suit s and rank r. */
  lemma MinorTableBuilt()
    ensures MinorShape(MinorTable(4))
  {
    assert Suits[..4] == Suits;
    assert Ranks[..14] == Ranks;
  }

  // =====================================================================
  // Default names
  // =====================================================================

  /** The traditional names of the major arcana, by number. */
  const MajorNames: map<string, string> := map[
    "00" := "The Fool", "01" := "The Magician", "02" := "The High Priestess",
    "03" := "The Empress", "04" := "The Emperor", "05" := "The Hierophant",
    "06" := "The Lovers", "07" := "The Chariot", "08" := "Strength",
    "09" := "The Hermit", "10" := "Wheel of Fortune", "11" := "Justice",
    "12" := "The Hanged Man", "13" := "Death", "14" := "Temperance",
    "15" := "The Devil", "16" := "The Tower", "17" := "The Star",
    "18" := "The Moon", "19" := "The Sun", "20" := "Judgement",
    "21" := "The World"]

  /** getDefaultMajorArcanaName: the traditional name, or "Major Arcana "
      followed by the number for a number outside the table. */
  function DefaultMajorName(number: string): (name: string)
    ensures name != ""
    ensures number !in MajorNames ==> name == "Major Arcana " + number
  {
    if number in MajorNames then MajorNames[number] else "Major Arcana " + number
  }

  /** The table names exactly the numbers "00" to "21": every major card of
      the deck gets its traditional name, and the fallback is used only
      outside that range. */
  lemma MajorNamesCover(number: string)
    ensures number in MajorNames <==> number in MajorNumbers
    ensures number in MajorNumbers ==> DefaultMajorName(number) == MajorNames[number]
  {
  }

  /** The first letter of `w` upper-cased, the rest kept. */
  function Capitalize(w: string): (r: string)
    requires w != ""
    ensures |r| == |w| && r[0] == UpperAscii(w[0]) && r[1..] == w[1..]
  {
    [UpperAscii(w[0])] + w[1..]
  }

  /** getDefaultMinorArcanaName: the rank in title case, " of ", and the
      suit with its first letter upper-cased. The source slices suit[:1], so
      the suit may not be empty. */
  function DefaultMinorName(rank: string, suit: string): (name: string)
    requires suit != ""
    ensures |name| == |rank| + 4 + |suit|
  {
    Title(rank) + " of " + Capitalize(suit)
  }

  /** A word of letters and digits keeps its case after a letter. */
  lemma {:induction false} TitleInsideWord(w: string, prev: char)
    requires !IsTitleSeparator(prev)
    requires forall i :: 0 <= i < |w| ==> !IsTitleSeparator(w[i])
    ensures TitleAfter(w, prev) == w
  {
    if w != [] {
      TitleInsideWord(w[1..], w[0]);
      assert [w[0]] + w[1..] == w;
    }
  }

  /** strings.Title of a one-word rank is the rank with its first letter
      upper-cased, so the default name of (rank, suit) is e.g. "Ace of Wands". */
  lemma DefaultMinorNameOfWords(rank: string, suit: string)
    requires rank != "" && suit != ""
    requires forall i :: 0 <= i < |rank| ==> !IsTitleSeparator(rank[i])
    ensures DefaultMinorName(rank, suit) == Capitalize(rank) + " of " + Capitalize(suit)
  {
    TitleInsideWord(rank[1..], rank[0]);
    assert Title(rank) == [UpperAscii(rank[0])] + TitleAfter(rank[1..], rank[0]);
  }

  // =====================================================================
  // Language files
  // =====================================================================

  /** A decoded language file (NameConfig); None stands for a table the file
      does not have (a nil Go map). */
  datatype NameConfig = NameConfig(
    majorArcana: Option<map<string, string>>,
    majorArcanaAltText: Option<map<string, string>>,
    minorArcana: Option<map<string, map<string, string>>>,
    minorArcanaAltText: Option<map<string, map<string, string>>>)

  /** The card field a language table sets. */
  datatype Field = Name | AltText

  function WithField(c: Card, f: Field, v: string): (d: Card)
    ensures SameCard(d, c)
  {
    match f
    case Name => c.(name := v)
    case AltText => c.(altText := v)
  }

  /** The cards of `cards` with field `f` set from `values` where a value is
      given; other cards, and values for cards not in the table, are left. */
  function Overlay(cards: map<string, Card>, values: map<string, string>, f: Field): (r: map<string, Card>)
    ensures r.Keys == cards.Keys
  {
    map k | k in cards :: if k in values then WithField(cards[k], f, values[k]) else cards[k]
  }

  /** Overlay per suit, for the suits the table has. */
  function OverlaySuits(suits: map<string, map<string, Card>>, values: map<string, map<string, string>>, f: Field)
    : (r: map<string, map<string, Card>>)
    ensures r.Keys == suits.Keys
  {
    map s | s in suits :: if s in values then Overlay(suits[s], values[s], f) else suits[s]
  }

  /** The major table after a language file: its names, then (only when it
      has a names table) its alternative texts. */
  function LanguageMajor(m: map<string, Card>, cfg: NameConfig): map<string, Card>
  {
    if cfg.majorArcana.None? then m
    else
      var named := Overlay(m, cfg.majorArcana.value, Name);
      if cfg.majorArcanaAltText.None? then named else Overlay(named, cfg.majorArcanaAltText.value, AltText)
  }

  function LanguageMinor(m: map<string, map<string, Card>>, cfg: NameConfig): map<string, map<string, Card>>
  {
    if cfg.minorArcana.None? then m
    else
      var named := OverlaySuits(m, cfg.minorArcana.value, Name);
      if cfg.minorArcanaAltText.None? then named else OverlaySuits(named, cfg.minorArcanaAltText.value, AltText)
  }

  /** A language file changes names and alternative texts only: the tables
      keep their keys and every card its ID, type, number, suit and rank. */
  lemma LanguageKeepsMajorShape(major: map<string, Card>, cfg: NameConfig)
    requires MajorShape(major)
    ensures MajorShape(LanguageMajor(major, cfg))
  {
    if cfg.majorArcana.Some? {
      var named := Overlay(major, cfg.majorArcana.value, Name);
      OverlayKeepsMajorShape(major, cfg.majorArcana.value, Name);
      if cfg.majorArcanaAltText.Some? {
        OverlayKeepsMajorShape(named, cfg.majorArcanaAltText.value, AltText);
      }
    }
  }

  lemma OverlayKeepsMajorShape(m: map<string, Card>, values: map<string, string>, f: Field)
    requires MajorShape(m)
    ensures MajorShape(Overlay(m, values, f))
  {
  }

  lemma LanguageKeepsMinorShape(minor: map<string, map<string, Card>>, cfg: NameConfig)
    requires MinorShape(minor)
    ensures MinorShape(LanguageMinor(minor, cfg))
  {
    if cfg.minorArcana.Some? {
      OverlaySuitsKeepsShape(minor, cfg.minorArcana.value, Name);
      if cfg.minorArcanaAltText.Some? {
        OverlaySuitsKeepsShape(OverlaySuits(minor, cfg.minorArcana.value, Name), cfg.minorArcanaAltText.value, AltText);
      }
    }
  }

  lemma OverlaySuitsKeepsShape(minor: map<string, map<string, Card>>, values: map<string, map<string, string>>, f: Field)
    requires MinorShape(minor)
    ensures MinorShape(OverlaySuits(minor, values, f))
  {
    var r := OverlaySuits(minor, values, f);
    forall s | s in r
      ensures SuitShape(s, r[s])
    {
      assert SuitShape(s, minor[s]);
      if s in values {
        OverlayKeepsSuitShape(s, minor[s], values[s], f);
      }
    }
  }

  lemma OverlayKeepsSuitShape(suit: string, m: map<string, Card>, values: map<string, string>, f: Field)
    requires SuitShape(suit, m)
    ensures SuitShape(suit, Overlay(m, values, f))
  {
  }

  /** A value given for a card of the table ends up in that card; a value for
      a key outside the table adds nothing. */
  lemma OverlaySets(cards: map<string, Card>, values: map<string, string>, f: Field, k: string)
    ensures k in Overlay(cards, values, f) <==> k in cards
    ensures k in cards && k in values ==>
              (f == Name ==> Overlay(cards, values, f)[k].name == values[k])
              && (f == AltText ==> Overlay(cards, values, f)[k].altText == values[k])
    ensures k in cards && k !in values ==> Overlay(cards, values, f)[k] == cards[k]
  {
  }

  // =====================================================================
  // Filling in names
  // =====================================================================

  /** setDefaultNames on the major table: every card named after its key. */
  function DefaultNamesMajor(m: map<string, Card>): (r: map<string, Card>)
    ensures r.Keys == m.Keys
  {
    map k | k in m :: m[k].(name := DefaultMajorName(k))
  }

  /** No suit key is empty, as getDefaultMinorArcanaName needs. */
  predicate SuitKeysNonEmpty(m: map<string, map<string, Card>>)
  {
    forall s :: s in m ==> s != ""
  }

  function DefaultNamesSuit(suitMap: map<string, Card>, suit: string): (r: map<string, Card>)
    requires suit != ""
    ensures r.Keys == suitMap.Keys
  {
    map rank | rank in suitMap :: suitMap[rank].(name := DefaultMinorName(rank, suit))
  }

  /** setDefaultNames on the minor table: every card named after its rank
      and suit keys. */
  function DefaultNamesMinor(m: map<string, map<string, Card>>): (r: map<string, map<string, Card>>)
    requires SuitKeysNonEmpty(m)
    ensures r.Keys == m.Keys
  {
    map s | s in m :: DefaultNamesSuit(m[s], s)
  }

  /** The default-name fill of loadCardInfo on the major table: a card
      without a name is named after its own number. */
  function FillMajor(m: map<string, Card>): (r: map<string, Card>)
    ensures r.Keys == m.Keys
  {
    map k | k in m :: if m[k].name == "" then m[k].(name := DefaultMajorName(m[k].number)) else m[k]
  }

  /** Every card's own suit is non-empty, as getDefaultMinorArcanaName needs. */
  predicate CardSuitsNonEmpty(suitMap: map<string, Card>)
  {
    forall k :: k in suitMap ==> suitMap[k].suit != ""
  }

  function FillSuit(suitMap: map<string, Card>): (r: map<string, Card>)
    requires CardSuitsNonEmpty(suitMap)
    ensures r.Keys == suitMap.Keys
  {
    map k | k in suitMap ::
      if suitMap[k].name == "" then suitMap[k].(name := DefaultMinorName(suitMap[k].rank, suitMap[k].suit))
      else suitMap[k]
  }

  /** The default-name fill on the minor table: a card without a name is
      named after its own rank and suit. */
  function FillMinor(m: map<string, map<string, Card>>): (r: map<string, map<string, Card>>)
    requires forall s :: s in m ==> CardSuitsNonEmpty(m[s])
    ensures r.Keys == m.Keys
  {
    map s | s in m :: FillSuit(m[s])
  }

  /** The major table loadCardInfo leaves: with a decoded language file its
      names and alternative texts, then the default names where none was
      given; without one (None), the default names throughout. */
  function LoadedMajor(cfg: Option<NameConfig>): map<string, Card>
  {
    if cfg.None? then DefaultNamesMajor(MajorTable(22)) else FillMajor(LanguageMajor(MajorTable(22), cfg.value))
  }

  function LoadedMinor(cfg: Option<NameConfig>): map<string, map<string, Card>>
  {
    MinorTableBuilt();
    ShapeSuits(MinorTable(4));
    if cfg.None? then DefaultNamesMinor(MinorTable(4))
    else
      LanguageKeepsMinorShape(MinorTable(4), cfg.value);
      ShapeSuits(LanguageMinor(MinorTable(4), cfg.value));
      FillMinor(LanguageMinor(MinorTable(4), cfg.value))
  }

  /** Whatever the language file, the loaded tables have the built shape and
      every card has a name. */
  lemma LoadedTables(cfg: Option<NameConfig>)
    ensures MajorShape(LoadedMajor(cfg)) && MinorShape(LoadedMinor(cfg))
    ensures AllNamed(LoadedMajor(cfg), LoadedMinor(cfg))
  {
    MajorTableBuilt();
    MinorTableBuilt();
    if cfg.None? {
      DefaultNamesNameAll(MajorTable(22), MinorTable(4));
    } else {
      LanguageKeepsMajorShape(MajorTable(22), cfg.value);
      LanguageKeepsMinorShape(MinorTable(4), cfg.value);
      FillNamesAll(LanguageMajor(MajorTable(22), cfg.value), LanguageMinor(MinorTable(4), cfg.value));
    }
  }

  /** Every card has a name. */
  ghost predicate AllNamed(major: map<string, Card>, minor: map<string, map<string, Card>>)
  {
    && (forall k :: k in major ==> major[k].name != "")
    && (forall s, r :: s in minor && r in minor[s] ==> minor[s][r].name != "")
  }

  /** In a table of the built shape the suits are non-empty, and so is
      every card's own suit. */
  lemma ShapeSuits(minor: map<string, map<string, Card>>)
    requires MinorShape(minor)
    ensures SuitKeysNonEmpty(minor)
    ensures forall s :: s in minor ==> CardSuitsNonEmpty(minor[s])
  {
    NoDotInSuits();
    forall s | s in minor
      ensures CardSuitsNonEmpty(minor[s])
    {
      assert SuitShape(s, minor[s]);
    }
  }

  /** setDefaultNames keeps the tables' shape and names every card. */
  lemma DefaultNamesNameAll(major: map<string, Card>, minor: map<string, map<string, Card>>)
    requires MajorShape(major) && MinorShape(minor)
    ensures SuitKeysNonEmpty(minor)
    ensures MajorShape(DefaultNamesMajor(major)) && MinorShape(DefaultNamesMinor(minor))
    ensures AllNamed(DefaultNamesMajor(major), DefaultNamesMinor(minor))
  {
    ShapeSuits(minor);
    var r := DefaultNamesMinor(minor);
    forall s | s in r
      ensures SuitShape(s, r[s]) && forall k :: k in r[s] ==> r[s][k].name != ""
    {
      DefaultSuitShape(s, minor[s]);
    }
  }

  /** Default names on one suit keep its shape and name every card. */
  lemma DefaultSuitShape(suit: string, m: map<string, Card>)
    requires suit != "" && SuitShape(suit, m)
    ensures SuitShape(suit, DefaultNamesSuit(m, suit))
    ensures forall k :: k in m ==> DefaultNamesSuit(m, suit)[k].name != ""
  {
  }

  /** The fill keeps the tables' shape, names every card, and keeps every
      name the language file gave. */
  lemma FillNamesAll(major: map<string, Card>, minor: map<string, map<string, Card>>)
    requires MajorShape(major) && MinorShape(minor)
    ensures forall s :: s in minor ==> CardSuitsNonEmpty(minor[s])
    ensures MajorShape(FillMajor(major)) && MinorShape(FillMinor(minor))
    ensures AllNamed(FillMajor(major), FillMinor(minor))
    ensures forall k :: k in major && major[k].name != "" ==> FillMajor(major)[k] == major[k]
    ensures forall s, k :: s in minor && k in minor[s] && minor[s][k].name != "" ==> FillMinor(minor)[s][k] == minor[s][k]
  {
    ShapeSuits(minor);
    var r := FillMinor(minor);
    forall s | s in r
      ensures SuitShape(s, r[s]) && forall k :: k in r[s] ==> r[s][k].name != ""
      ensures forall k :: k in minor[s] && minor[s][k].name != "" ==> r[s][k] == minor[s][k]
    {
      FillSuitShape(s, minor[s]);
    }
  }

  /** The fill on one suit keeps its shape and given names, and names every
      card. */
  lemma FillSuitShape(suit: string, m: map<string, Card>)
    requires SuitShape(suit, m) && CardSuitsNonEmpty(m)
    ensures SuitShape(suit, FillSuit(m))
    ensures forall k :: k in m ==> FillSuit(m)[k].name != ""
    ensures forall k :: k in m && m[k].name != "" ==> FillSuit(m)[k] == m[k]
  {
  }

  // =====================================================================
  // Choosing the language file
  // =====================================================================

  /** A directory entry loadCardInfo takes for a language file. */
  predicate IsTomlFile(e: DirEntry)
  {
    !e.isDir && Ext(e.name) == ".toml"
  }

  /** The index of the first language file in a listing, if any. */
  function FirstTomlIndex(entries: seq<DirEntry>): (r: Option<nat>)
    ensures r.Some? ==> r.value < |entries| && IsTomlFile(entries[r.value])
                        && forall j :: 0 <= j < r.value ==> !IsTomlFile(entries[j])
    ensures r.None? ==> forall j :: 0 <= j < |entries| ==> !IsTomlFile(entries[j])
  {
    if entries == [] then None
    else if IsTomlFile(entries[0]) then Some(0)
    else
      match FirstTomlIndex(entries[1..])
      case None => None
      case Some(i) => Some(i + 1)
  }

  /** The language file loadCardInfo decodes for the deck at `deckPath`:
      names/en.toml when it may exist, otherwise the first ".toml" file of
      names/ in listing order (en.toml again when there is none). None when
      there is no names directory, or its listing fails or is empty: then
      the default names are used and no error is reported. */
  function LanguageFile(fs: FileSystem, deckPath: string): (r: Option<string>)
    ensures r.Some? ==> HasPrefix(r.value, PathJoin(deckPath, "names") + "/")
  {
    var namesDir := PathJoin(deckPath, "names");
    var enTomlPath := PathJoin(namesDir, "en.toml");
    Affixes(namesDir + "/", "en.toml");
    if fs.IsNotExist(namesDir) then None
    else if !fs.IsNotExist(enTomlPath) then Some(enTomlPath)
    else
      match fs.ReadDir(namesDir)
      case None => None
      case Some(entries) =>
        if entries == [] then None
        else
          match FirstTomlIndex(entries)
          case None => Some(enTomlPath)
          case Some(i) =>
            Affixes(namesDir + "/", entries[i].name);
            Some(PathJoin(namesDir, entries[i].name))
  }

  /** Every decoded file exists: a path os.Stat cannot find does not decode. */
  predicate DecodedExist(fs: FileSystem, decoded: map<string, NameConfig>)
  {
    forall p :: p in decoded ==> fs.StatOk(p)
  }

  /** names/ exists without en.toml, and lists entries none of which is a
      ".toml" file: loadCardInfo then falls back to names/en.toml. */
  predicate FallsBackToEn(fs: FileSystem, deckPath: string)
  {
    var namesDir := PathJoin(deckPath, "names");
    && !fs.IsNotExist(namesDir)
    && fs.IsNotExist(PathJoin(namesDir, "en.toml"))
    && fs.ReadDir(namesDir).Some?
    && fs.ReadDir(namesDir).value != []
    && forall j :: 0 <= j < |fs.ReadDir(namesDir).value| ==> !IsTomlFile(fs.ReadDir(namesDir).value[j])
  }

  /** In the fall-back case the chosen file is the absent names/en.toml, so
      it cannot have decoded. */
  lemma EnFallbackFails(fs: FileSystem, deckPath: string, decoded: map<string, NameConfig>)
    requires DecodedExist(fs, decoded) && FallsBackToEn(fs, deckPath)
    ensures LanguageFile(fs, deckPath) == Some(PathJoin(PathJoin(deckPath, "names"), "en.toml"))
    ensures LanguageFile(fs, deckPath).value !in decoded
  {
  }

  /** Why loadCardInfo failed: the chosen language file did not decode. */
  datatype LoadError = LanguageFileError(path: string)

  // =====================================================================
  // GetCard
  // =====================================================================

  /** splitCardID: the dot-separated parts of a card ID. */
  function SplitCardId(cardID: string): (parts: seq<string>)
    ensures |parts| >= 1
    ensures forall i :: 0 <= i < |parts| ==> '.' !in parts[i]
    ensures Join(parts, ".") == cardID
  {
    JoinSplit(cardID, '.');
    Split(cardID, '.')
  }

  /** A suit and a rank of the built tables hold no '.'. */
  lemma NoDotInKeys(suit: string, rank: string)
    requires suit in SuitKeys() && rank in RankKeys()
    ensures '.' !in suit && '.' !in rank
  {
    NoDotInSuits();
    NoDotInRanks();
  }

  /** The ID of a minor card splits back into its three parts. */
  lemma MinorIdSplits(suit: string, rank: string)
    requires '.' !in suit && '.' !in rank
    ensures SplitCardId(NewMinorCard(suit, rank).id) == ["minor_arcana", suit, rank]
  {
    SplitThree("minor_arcana", '.', suit, rank);
  }

  lemma JoinTwo(parts: seq<string>)
    requires |parts| == 2
    ensures Join(parts, ".") == parts[0] + "." + parts[1]
  {
    assert Join(parts[1..], ".") == parts[1];
  }

  lemma JoinThree(parts: seq<string>)
    requires |parts| == 3
    ensures Join(parts, ".") == parts[0] + "." + parts[1] + "." + parts[2]
  {
    assert Join(parts[2..], ".") == parts[2];
    assert Join(parts[1..], ".") == parts[1] + "." + parts[2];
  }

  lemma MajorIdOf(m: map<string, Card>, number: string)
    requires MajorShape(m) && number in m
    ensures m[number].id == NewMajorCard(number).id
  {
  }

  lemma MinorIdOf(m: map<string, map<string, Card>>, suit: string, rank: string)
    requires MinorShape(m) && suit in m && rank in m[suit]
    ensures m[suit][rank].id == NewMinorCard(suit, rank).id
  {
    assert SuitShape(suit, m[suit]);
  }

  /** The two ID shapes GetCard accepts: "major_arcana.<number>" and
      "minor_arcana.<suit>.<rank>". */
  predicate IsCardIdShape(parts: seq<string>)
  {
    || (|parts| == 2 && parts[0] == "major_arcana")
    || (|parts| == 3 && parts[0] == "minor_arcana")
  }

  datatype LookupError =
    | InvalidCardIdFormat(cardID: string)
    | SuitNotFound(suit: string)
    | CardNotFound(cardID: string)

  // =====================================================================
  // The deck
  // =====================================================================

  /** A deck: its metadata from deck.toml and its two card tables, which
      loadCardInfo fills in place. Cards are values here; the source keeps
      pointers to them in the tables. */
  class Deck {
    const id: string
    const name: string
    const version: string
    const author: string
    const description: string
    const path: string
    var majorArcana: map<string, Card>
    var minorArcana: map<string, map<string, Card>>

    /** The deck LoadDeck makes from a decoded deck.toml, before its card
        tables are loaded. */
    constructor (id: string, name: string, version: string, author: string, description: string, path: string)
      ensures this.id == id && this.name == name && this.version == version
      ensures this.author == author && this.description == description && this.path == path
      ensures majorArcana == map[] && minorArcana == map[]
    {
      this.id := id;
      this.name := name;
      this.version := version;
      this.author := author;
      this.description := description;
      this.path := path;
      majorArcana := map[];
      minorArcana := map[];
    }

    /** The tables have the shape loadCardInfo builds. */
    ghost predicate Valid()
      reads this
    {
      MajorShape(majorArcana) && MinorShape(minorArcana)
    }

    /** GetCard: the card with the given ID, or why there is none. */
    function GetCard(cardID: string): (r: Result<Card, LookupError>)
      reads this
      ensures var parts := SplitCardId(cardID);
              && (r.Err? && r.error.InvalidCardIdFormat? <==> !IsCardIdShape(parts))
              && (r.Err? && r.error.SuitNotFound? <==>
                    |parts| == 3 && parts[0] == "minor_arcana" && parts[1] !in minorArcana)
              && (r.Err? && r.error.SuitNotFound? ==> r.error.suit == parts[1])
              && (r.Err? && !r.error.SuitNotFound? ==> r.error.cardID == cardID)
      ensures var parts := SplitCardId(cardID);
              && (r.Ok? <==>
                    || (|parts| == 2 && parts[0] == "major_arcana" && parts[1] in majorArcana)
                    || (|parts| == 3 && parts[0] == "minor_arcana" && parts[1] in minorArcana
                        && parts[2] in minorArcana[parts[1]]))
              && (r.Ok? && |parts| == 2 ==> r.value == majorArcana[parts[1]])
              && (r.Ok? && |parts| == 3 ==> r.value == minorArcana[parts[1]][parts[2]])
    {
      var parts := SplitCardId(cardID);
      if |parts| < 2 then Err(InvalidCardIdFormat(cardID))
      else if parts[0] == "major_arcana" && |parts| == 2 then
        if parts[1] !in majorArcana then Err(CardNotFound(cardID))
        else Ok(majorArcana[parts[1]])
      else if parts[0] == "minor_arcana" && |parts| == 3 then
        if parts[1] !in minorArcana then Err(SuitNotFound(parts[1]))
        else if parts[2] !in minorArcana[parts[1]] then Err(CardNotFound(cardID))
        else Ok(minorArcana[parts[1]][parts[2]])
      else Err(InvalidCardIdFormat(cardID))
    }

    /** Every major card of a loaded deck is found under its own ID. */
    lemma GetCardFindsMajor(number: string)
      requires Valid() && number in majorArcana
      ensures GetCard(majorArcana[number].id) == Ok(majorArcana[number])
    {
      NoDotInNumbers();
      MajorIdOf(majorArcana, number);
      SplitTwo("major_arcana", '.', number);
    }

    /** Every minor card of a loaded deck is found under its own ID. */
    lemma GetCardFindsMinor(suit: string, rank: string)
      requires Valid() && suit in minorArcana && rank in minorArcana[suit]
      ensures GetCard(minorArcana[suit][rank].id) == Ok(minorArcana[suit][rank])
    {
      MinorIdOf(minorArcana, suit, rank);
      NoDotInKeys(suit, rank);
      MinorIdSplits(suit, rank);
    }

    /** A card GetCard finds in a loaded deck carries the ID it was asked
        for. */
    lemma GetCardSound(cardID: string)
      requires Valid() && GetCard(cardID).Ok?
      ensures GetCard(cardID).value.id == cardID
    {
      var parts := SplitCardId(cardID);
      if |parts| == 2 {
        MajorIdOf(majorArcana, parts[1]);
        JoinTwo(parts);
      } else {
        MinorIdOf(minorArcana, parts[1], parts[2]);
        JoinThree(parts);
      }
    }

    /** The two build loops of loadCardInfo: the 22 major cards, then for each
        suit a fresh table of its 14 cards. */
    method BuildTables()
      modifies this
      ensures majorArcana == old(majorArcana) + MajorTable(22)
      ensures minorArcana == old(minorArcana) + MinorTable(4)
    {
      BuildMajor();
      for s := 0 to 4
        invariant minorArcana == old(minorArcana) + MinorTable(s)
        invariant majorArcana == old(majorArcana) + MajorTable(22)
      {
        var suit := Suits[s];
        BuildSuit(suit);
        MinorTableStep(s);
        UnionUpdate(old(minorArcana), MinorTable(s), suit, SuitTable(suit, |Ranks|));
      }
    }

    /** The loop building the major cards "00" to "21". */
    method BuildMajor()
      modifies this
      ensures majorArcana == old(majorArcana) + MajorTable(22)
      ensures minorArcana == old(minorArcana)
    {
      for i := 0 to 22
        invariant majorArcana == old(majorArcana) + MajorTable(i)
        invariant minorArcana == old(minorArcana)
      {
        var cardNumber := ZeroPad2(i);
        var cardID := "major_arcana" + "." + cardNumber;
        var c := Card(cardID, "", "major_arcana", cardNumber, "", "", "");
        MajorTableStep(i);
        UnionUpdate(old(majorArcana), MajorTable(i), cardNumber, c);
        majorArcana := majorArcana[cardNumber := c];
      }
    }

    /** The inner build loop: a fresh table for `suit` with its 14 cards.
        The table is filled before it is stored, which is the same as
        filling it in place since nothing else refers to it meanwhile. */
    method BuildSuit(suit: string)
      modifies this
      ensures minorArcana == old(minorArcana)[suit := SuitTable(suit, |Ranks|)]
      ensures majorArcana == old(majorArcana)
    {
      var table: map<string, Card> := map[];
      for r := 0 to |Ranks|
        invariant table == SuitTable(suit, r)
        invariant unchanged(this)
      {
        table := WithRank(table, suit, r);
      }
      minorArcana := minorArcana[suit := table];
    }

    /** One pass of the inner build loop: the card of rank r of `suit`. */
    static method WithRank(table: map<string, Card>, suit: string, r: nat) returns (table': map<string, Card>)
      requires r < |Ranks| && table == SuitTable(suit, r)
      ensures table' == SuitTable(suit, r + 1)
    {
      var rank := Ranks[r];
      var cardID := "minor_arcana" + "." + suit + "." + rank;
      var c := Card(cardID, "", "minor_arcana", "", suit, rank, "");
      SuitTableStep(suit, r);
      table' := table[rank := c];
    }

    /** loadCardInfo: build the tables, then name the cards from the deck's
        language file, or with the default names when there is none or it
        does not decode; the latter is reported. LoadDeck calls it on the
        deck it has just made. `decoded` holds what toml.DecodeFile gives
        for each path it decodes; a path outside it fails to decode. */
    method LoadCardInfo(fs: FileSystem, decoded: map<string, NameConfig>) returns (err: Option<LoadError>)
      requires majorArcana == map[] && minorArcana == map[]
      requires DecodedExist(fs, decoded)
      modifies this
      ensures Valid() && AllNamed(majorArcana, minorArcana)
      ensures FallsBackToEn(fs, path) ==> err == Some(LanguageFileError(PathJoin(PathJoin(path, "names"), "en.toml")))
      ensures var file := LanguageFile(fs, path);
              && (err.Some? <==> file.Some? && file.value !in decoded)
              && (err.Some? ==> err.value == LanguageFileError(file.value))
              && majorArcana == LoadedMajor(if file.Some? && file.value in decoded then Some(decoded[file.value]) else None)
              && minorArcana == LoadedMinor(if file.Some? && file.value in decoded then Some(decoded[file.value]) else None)
    {
      BuildTables();
      EmptyUnion(MajorTable(22));
      EmptyUnion(MinorTable(4));
      MajorTableBuilt();
      MinorTableBuilt();
      var file := ChooseLanguageFile(fs);
      if file.Some? && file.value in decoded {
        var cfg := decoded[file.value];
        ApplyLanguage(cfg);
        LanguageKeepsMajorShape(MajorTable(22), cfg);
        LanguageKeepsMinorShape(MinorTable(4), cfg);
        ShapeSuits(minorArcana);
        FillMissingNames();
        err := None;
      } else {
        ShapeSuits(minorArcana);
        SetDefaultNames();
        err := if file.Some? then Some(LanguageFileError(file.value)) else None;
      }
      LoadedTables(if file.Some? && file.value in decoded then Some(decoded[file.value]) else None);
      if FallsBackToEn(fs, path) {
        EnFallbackFails(fs, path, decoded);
      }
    }

    /** The part of loadCardInfo that finds the language file: names/en.toml,
        else the first ".toml" file of names/; None where loadCardInfo falls
        back to the default names without an error. */
    method ChooseLanguageFile(fs: FileSystem) returns (file: Option<string>)
      ensures file == LanguageFile(fs, path)
    {
      var namesDir := PathJoin(path, "names");
      if fs.IsNotExist(namesDir) {
        return None;
      }
      var enTomlPath := PathJoin(namesDir, "en.toml");
      if fs.IsNotExist(enTomlPath) {
        var entries := fs.ReadDir(namesDir);
        if entries.None? || |entries.value| == 0 {
          return None;
        }
        enTomlPath := FirstTomlFile(namesDir, entries.value, enTomlPath);
      }
      return Some(enTomlPath);
    }

    /** The loop of loadCardInfo that picks the first ".toml" file of the
        listing, keeping `fallback` when there is none. */
    static method FirstTomlFile(namesDir: string, entries: seq<DirEntry>, fallback: string) returns (file: string)
      ensures file == match FirstTomlIndex(entries)
                      case None => fallback
                      case Some(i) => PathJoin(namesDir, entries[i].name)
    {
      file := fallback;
      var i := 0;
      while i < |entries|
        invariant i <= |entries|
        invariant forall j :: 0 <= j < i ==> !IsTomlFile(entries[j])
        invariant file == fallback
      {
        var entry := entries[i];
        if !entry.isDir && Ext(entry.name) == ".toml" {
          file := PathJoin(namesDir, entry.name);
          break;
        }
        i := i + 1;
      }
    }

    /** The language file's tables laid over the deck's, as loadCardInfo
        does: names and then (only with a names table) alternative texts,
        first for the major and then for the minor arcana. */
    method ApplyLanguage(cfg: NameConfig)
      modifies this
      ensures majorArcana == LanguageMajor(old(majorArcana), cfg)
      ensures minorArcana == LanguageMinor(old(minorArcana), cfg)
    {
      if cfg.majorArcana.Some? {
        majorArcana := OverlayCards(majorArcana, cfg.majorArcana.value, Name);
        if cfg.majorArcanaAltText.Some? {
          majorArcana := OverlayCards(majorArcana, cfg.majorArcanaAltText.value, AltText);
        }
      }
      if cfg.minorArcana.Some? {
        minorArcana := OverlayMinor(minorArcana, cfg.minorArcana.value, Name);
        if cfg.minorArcanaAltText.Some? {
          minorArcana := OverlayMinor(minorArcana, cfg.minorArcanaAltText.value, AltText);
        }
      }
    }

    /** One loop over a table of the language file, in Go's map order (any
        order): each value sets field `f` of the card with that key, if the
        table has one. It serves the major table and each suit. */
    static method OverlayCards(cards: map<string, Card>, values: map<string, string>, f: Field)
      returns (cards': map<string, Card>)
      ensures cards' == Overlay(cards, values, f)
    {
      ghost var spec := Overlay(cards, values, f);
      cards' := cards;
      var todo := values.Keys;
      MixNone(cards, spec);
      while todo != {}
        invariant todo <= values.Keys
        invariant cards' == Mix(cards, spec, values.Keys - todo)
        decreases |todo|
      {
        var key :| key in todo;
        MixStep(cards, spec, values.Keys - todo, key);
        if key in cards' {
          cards' := cards'[key := WithField(cards'[key], f, values[key])];
        }
        TakeOne(values.Keys, todo, key);
        todo := todo - {key};
      }
      MixCovers(cards, spec, values.Keys);
    }

    /** One loop over a minor table of the language file: for each suit the
        deck has, its values are laid over that suit's cards. */
    static method OverlayMinor(minor: map<string, map<string, Card>>, values: map<string, map<string, string>>, f: Field)
      returns (minor': map<string, map<string, Card>>)
      ensures minor' == OverlaySuits(minor, values, f)
    {
      ghost var spec := OverlaySuits(minor, values, f);
      minor' := minor;
      var todo := values.Keys;
      MixNone(minor, spec);
      while todo != {}
        invariant todo <= values.Keys
        invariant minor' == Mix(minor, spec, values.Keys - todo)
        decreases |todo|
      {
        var suit :| suit in todo;
        MixStep(minor, spec, values.Keys - todo, suit);
        if suit in minor' {
          var suitMap := OverlayCards(minor'[suit], values[suit], f);
          minor' := minor'[suit := suitMap];
        }
        TakeOne(values.Keys, todo, suit);
        todo := todo - {suit};
      }
      MixCovers(minor, spec, values.Keys);
    }

    /** setDefaultNames: every card gets the default name of its keys. */
    method SetDefaultNames()
      requires SuitKeysNonEmpty(minorArcana)
      modifies this
      ensures majorArcana == DefaultNamesMajor(old(majorArcana))
      ensures minorArcana == DefaultNamesMinor(old(minorArcana))
    {
      majorArcana := DefaultNameMajors(majorArcana);
      minorArcana := DefaultNameSuits(minorArcana);
    }

    /** The loop of setDefaultNames over the major cards, in Go's map order
        (any order). */
    static method DefaultNameMajors(major: map<string, Card>) returns (major': map<string, Card>)
      ensures major' == DefaultNamesMajor(major)
    {
      ghost var spec := DefaultNamesMajor(major);
      major' := major;
      var todo := major.Keys;
      MixNone(major, spec);
      while todo != {}
        invariant todo <= major.Keys
        invariant major' == Mix(major, spec, major.Keys - todo)
        decreases |todo|
      {
        var num :| num in todo;
        MixStep(major, spec, major.Keys - todo, num);
        major' := major'[num := major'[num].(name := DefaultMajorName(num))];
        TakeOne(major.Keys, todo, num);
        todo := todo - {num};
      }
      MixAll(major, spec);
    }

    /** The loop of setDefaultNames over the suits. */
    static method DefaultNameSuits(minor: map<string, map<string, Card>>) returns (minor': map<string, map<string, Card>>)
      requires SuitKeysNonEmpty(minor)
      ensures minor' == DefaultNamesMinor(minor)
    {
      ghost var spec := DefaultNamesMinor(minor);
      minor' := minor;
      var suits := minor.Keys;
      MixNone(minor, spec);
      while suits != {}
        invariant suits <= minor.Keys
        invariant minor' == Mix(minor, spec, minor.Keys - suits)
        decreases |suits|
      {
        var suit :| suit in suits;
        MixStep(minor, spec, minor.Keys - suits, suit);
        var suitMap := DefaultNameSuit(minor'[suit], suit);
        minor' := minor'[suit := suitMap];
        TakeOne(minor.Keys, suits, suit);
        suits := suits - {suit};
      }
      MixAll(minor, spec);
    }

    /** The inner loop of setDefaultNames over the cards of one suit. */
    static method DefaultNameSuit(suitMap: map<string, Card>, suit: string) returns (suitMap': map<string, Card>)
      requires suit != ""
      ensures suitMap' == DefaultNamesSuit(suitMap, suit)
    {
      ghost var spec := DefaultNamesSuit(suitMap, suit);
      suitMap' := suitMap;
      var ranks := suitMap.Keys;
      MixNone(suitMap, spec);
      while ranks != {}
        invariant ranks <= suitMap.Keys
        invariant suitMap' == Mix(suitMap, spec, suitMap.Keys - ranks)
        decreases |ranks|
      {
        var rank :| rank in ranks;
        MixStep(suitMap, spec, suitMap.Keys - ranks, rank);
        suitMap' := suitMap'[rank := suitMap'[rank].(name := DefaultMinorName(rank, suit))];
        TakeOne(suitMap.Keys, ranks, rank);
        ranks := ranks - {rank};
      }
      MixAll(suitMap, spec);
    }

    /** The last two loops of loadCardInfo: a card still without a name gets
        the default name of its own number, or of its own rank and suit. */
    method FillMissingNames()
      requires forall s :: s in minorArcana ==> CardSuitsNonEmpty(minorArcana[s])
      modifies this
      ensures majorArcana == FillMajor(old(majorArcana))
      ensures minorArcana == FillMinor(old(minorArcana))
    {
      majorArcana := FillMajorNames(majorArcana);
      minorArcana := FillSuitsNames(minorArcana);
    }

    /** The fill loop over the major cards. */
    static method FillMajorNames(major: map<string, Card>) returns (major': map<string, Card>)
      ensures major' == FillMajor(major)
    {
      ghost var spec := FillMajor(major);
      major' := major;
      var todo := major.Keys;
      MixNone(major, spec);
      while todo != {}
        invariant todo <= major.Keys
        invariant major' == Mix(major, spec, major.Keys - todo)
        decreases |todo|
      {
        var num :| num in todo;
        MixStep(major, spec, major.Keys - todo, num);
        var card := major'[num];
        if card.name == "" {
          major' := major'[num := card.(name := DefaultMajorName(card.number))];
        }
        TakeOne(major.Keys, todo, num);
        todo := todo - {num};
      }
      MixAll(major, spec);
    }

    /** The fill loop over the suits. */
    static method FillSuitsNames(minor: map<string, map<string, Card>>) returns (minor': map<string, map<string, Card>>)
      requires forall s :: s in minor ==> CardSuitsNonEmpty(minor[s])
      ensures minor' == FillMinor(minor)
    {
      ghost var spec := FillMinor(minor);
      minor' := minor;
      var suits := minor.Keys;
      MixNone(minor, spec);
      while suits != {}
        invariant suits <= minor.Keys
        invariant minor' == Mix(minor, spec, minor.Keys - suits)
        decreases |suits|
      {
        var suit :| suit in suits;
        MixStep(minor, spec, minor.Keys - suits, suit);
        var suitMap := FillSuitNames(minor'[suit]);
        minor' := minor'[suit := suitMap];
        TakeOne(minor.Keys, suits, suit);
        suits := suits - {suit};
      }
      MixAll(minor, spec);
    }

    /** The inner fill loop over the cards of one suit. */
    static method FillSuitNames(suitMap: map<string, Card>) returns (suitMap': map<string, Card>)
      requires CardSuitsNonEmpty(suitMap)
      ensures suitMap' == FillSuit(suitMap)
    {
      ghost var spec := FillSuit(suitMap);
      suitMap' := suitMap;
      var ranks := suitMap.Keys;
      MixNone(suitMap, spec);
      while ranks != {}
        invariant ranks <= suitMap.Keys
        invariant suitMap' == Mix(suitMap, spec, suitMap.Keys - ranks)
        decreases |ranks|
      {
        var rank :| rank in ranks;
        MixStep(suitMap, spec, suitMap.Keys - ranks, rank);
        var card := suitMap'[rank];
        if card.name == "" {
          suitMap' := suitMap'[rank := card.(name := DefaultMinorName(card.rank, card.suit))];
        }
        TakeOne(suitMap.Keys, ranks, rank);
        ranks := ranks - {rank};
      }
      MixAll(suitMap, spec);
    }
  }

  /** `m0` with the values of `spec` at the keys in `done`: the state of a
      loop that has visited the keys in `done`. */
  function Mix<V>(m0: map<string, V>, spec: map<string, V>, done: set<string>): (r: map<string, V>)
    requires m0.Keys == spec.Keys
    ensures r.Keys == m0.Keys
  {
    map k | k in m0 :: if k in done then spec[k] else m0[k]
  }

  lemma MixNone<V>(m0: map<string, V>, spec: map<string, V>)
    requires m0.Keys == spec.Keys
    ensures Mix(m0, spec, {}) == m0
  {
  }

  lemma MixAll<V>(m0: map<string, V>, spec: map<string, V>)
    requires m0.Keys == spec.Keys
    ensures Mix(m0, spec, m0.Keys) == spec
  {
  }

  lemma MixStep<V>(m0: map<string, V>, spec: map<string, V>, done: set<string>, k: string)
    requires m0.Keys == spec.Keys && k !in done
    ensures k in m0 ==> Mix(m0, spec, done)[k] == m0[k]
    ensures k in m0 ==> Mix(m0, spec, done + {k}) == Mix(m0, spec, done)[k := spec[k]]
    ensures k !in m0 ==> Mix(m0, spec, done + {k}) == Mix(m0, spec, done)
  {
  }

  /** A loop that has visited every key whose value changes is done. */
  lemma MixCovers<V>(m0: map<string, V>, spec: map<string, V>, done: set<string>)
    requires m0.Keys == spec.Keys
    requires forall k :: k in m0 && k !in done ==> spec[k] == m0[k]
    ensures Mix(m0, spec, done) == spec
  {
  }

  /** Taking one key out of the keys still to visit. */
  lemma TakeOne(all: set<string>, todo: set<string>, k: string)
    requires k in todo && todo <= all
    ensures all - (todo - {k}) == (all - todo) + {k}
    ensures todo - {k} <= all && |todo - {k}| < |todo|
  {
  }

  lemma EmptyUnion<V>(t: map<string, V>)
    ensures map[] + t == t
  {
  }

  lemma UnionUpdate<V>(a: map<string, V>, t: map<string, V>, k: string, v: V)
    ensures (a + t)[k := v] == a + t[k := v]
  {
  }
}
