/** internal/validator/validator.go: the checks `cartomancer validate` runs
    over a deck directory. A Validator holds the deck's path and a list of
    errors and a list of warnings; each check appends to them. The file
    system is a Files.FileSystem snapshot and the TOML files come already
    decoded (see README). */
module Validation {
  import opened Results
  import opened Strings
  import opened Files
  import Decks

  // =====================================================================
  // Messages and results
  // =====================================================================

  /** One message of the validator: each constructor stands for one of the
      source's message formats and carries its arguments. Which list a
      message goes to is decided where it is appended. */
  datatype Issue =
    // validateDeckToml
    | FieldRequired(field: string)
    | UnsupportedSchemaVersion(version: string)
    | DefaultBackRequired
    | BackImageRequired(variant: string)
    | BackImageNotFound(image: string)
    // validateDirectoryStructure
    | CardBacksDirMissing
    | NoImageDirectories
    | NamesDirMissing
    // validateCardBacks
    | CardBacksReadError
    | NoCardBacks
    // validateMajorArcana, validateMinorArcana
    | MissingMajorCards(imageDir: string, cards: seq<string>)
    | MajorDirNotFound
    | MissingSuitDir(suit: string, minorDir: string)
    | MissingSuitCards(suit: string, ranks: seq<string>)
    | MinorDirNotFound
    // validateNames
    | NamesReadError
    | NoLanguageFiles
    | LanguageParseError(file: string)
    | MissingMajorSection(file: string)
    | MissingMinorSection(file: string)
    | NoAltText(file: string)
    | NoValidLanguageFiles
    // validateAnsiArt, validateAnsiDirectory
    | DeckDirReadError
    | NoAnsiDirs
    | AnsiMajorDirMissing(dirName: string)
    | MissingAnsiMajor(dirName: string, cards: seq<string>)
    | AnsiMinorDirMissing(dirName: string)
    | MissingAnsiSuitDir(suit: string, dirName: string)
    | MissingAnsiSuitCards(suit: string, dirName: string, ranks: seq<string>)

  /** ValidationResults: the errors and the warnings, in the order found. */
  datatype ValidationResults = ValidationResults(errors: seq<Issue>, warnings: seq<Issue>)
  {
    /** These results followed by those of `more`. */
    function Then(more: ValidationResults): ValidationResults
    {
      ValidationResults(errors + more.errors, warnings + more.warnings)
    }

    function WithError(e: Issue): ValidationResults
    {
      ValidationResults(errors + [e], warnings)
    }

    function WithWarning(w: Issue): ValidationResults
    {
      ValidationResults(errors, warnings + [w])
    }
  }

  const NoIssues := ValidationResults([], [])

  function Errors(es: seq<Issue>): ValidationResults
  {
    ValidationResults(es, [])
  }

  function Warnings(ws: seq<Issue>): ValidationResults
  {
    ValidationResults([], ws)
  }

  /** `later` keeps every earlier error and warning, in place, and may add
      more after them. */
  predicate Extends(earlier: ValidationResults, later: ValidationResults)
  {
    earlier.errors <= later.errors && earlier.warnings <= later.warnings
  }

  /** The error Validate returns when it stops before any check. */
  datatype ValidateError =
    | DeckTomlNotFound(deckPath: string)
    | DeckTomlParseError

  // =====================================================================
  // A loop that appends for each element, in order
  // =====================================================================

  /** What a loop over `xs` leaves when it appends f(x) for each x in turn. */
  function Collect<X, T>(xs: seq<X>, f: X -> seq<T>): seq<T>
  {
    if xs == [] then [] else Collect(xs[..|xs| - 1], f) + f(xs[|xs| - 1])
  }

  /** One more step of such a loop. */
  lemma CollectStep<X, T>(xs: seq<X>, i: nat, f: X -> seq<T>)
    requires i < |xs|
    ensures Collect(xs[..i + 1], f) == Collect(xs[..i], f) + f(xs[i])
  {
    assert xs[..i + 1][..i] == xs[..i];
  }

  lemma CollectSnoc<X, T>(xs: seq<X>, x: X, f: X -> seq<T>)
    ensures Collect(xs + [x], f) == Collect(xs, f) + f(x)
  {
    assert (xs + [x])[..|xs|] == xs;
  }

  lemma {:induction false} CollectConcat<X, T>(a: seq<X>, b: seq<X>, f: X -> seq<T>)
    ensures Collect(a + b, f) == Collect(a, f) + Collect(b, f)
    decreases |b|
  {
    if b != [] {
      var b' := b[..|b| - 1];
      assert (a + b)[..|a + b| - 1] == a + b';
      assert (a + b)[|a + b| - 1] == b[|b| - 1];
      CollectConcat(a, b', f);
      assert Collect(a + b, f) == Collect(a + b', f) + f(b[|b| - 1]);
      assert Collect(b, f) == Collect(b', f) + f(b[|b| - 1]);
    } else {
      assert a + b == a;
    }
  }

  /** An element is collected exactly when some x contributes it. */
  lemma {:induction false} CollectMember<X, T>(xs: seq<X>, f: X -> seq<T>, y: T)
    ensures y in Collect(xs, f) <==> exists x :: x in xs && y in f(x)
    decreases |xs|
  {
    if xs != [] {
      var xs' := xs[..|xs| - 1];
      CollectMember(xs', f, y);
      assert forall x :: x in xs <==> x in xs' || x == xs[|xs| - 1];
    }
  }

  /** Nothing is collected exactly when no x contributes anything. */
  lemma {:induction false} CollectNone<X, T>(xs: seq<X>, f: X -> seq<T>)
    ensures Collect(xs, f) == [] <==> forall x :: x in xs ==> f(x) == []
    decreases |xs|
  {
    if xs != [] {
      var xs' := xs[..|xs| - 1];
      CollectNone(xs', f);
      assert forall x :: x in xs <==> x in xs' || x == xs[|xs| - 1];
    }
  }

  /** Taking the element at `k` out of `b` takes its contribution out of
      what is collected. */
  lemma CollectRemove<X, T>(b: seq<X>, k: nat, f: X -> seq<T>)
    requires k < |b|
    ensures multiset(Collect(b, f)) == multiset(Collect(b[..k] + b[k + 1..], f)) + multiset(f(b[k]))
  {
    var b1, x, b2 := b[..k], b[k], b[k + 1..];
    assert b == (b1 + [x]) + b2;
    CollectConcat(b1 + [x], b2, f);
    CollectSnoc(b1, x, f);
    CollectConcat(b1, b2, f);
    var c1, fx, c2 := Collect(b1, f), f(x), Collect(b2, f);
    assert Collect(b, f) == (c1 + fx) + c2;
    assert Collect(b1 + b2, f) == c1 + c2;
    MultisetOfConcat3(c1, fx, c2);
  }

  /** Where a piece sits does not change the multiset. */
  lemma MultisetOfConcat3<T>(c1: seq<T>, fx: seq<T>, c2: seq<T>)
    ensures multiset((c1 + fx) + c2) == multiset(c1 + c2) + multiset(fx)
  {
  }

  /** Taking the same element out of two orders of the same elements leaves
      two orders of the same elements. */
  lemma MultisetRemove<X>(a: seq<X>, b: seq<X>, k: nat)
    requires a != [] && k < |b| && b[k] == a[|a| - 1]
    requires multiset(a) == multiset(b)
    ensures multiset(a[..|a| - 1]) == multiset(b[..k] + b[k + 1..])
  {
    var x, a', b1, b2 := a[|a| - 1], a[..|a| - 1], b[..k], b[k + 1..];
    assert a == a' + [x];
    assert b == b1 + [x] + b2;
    assert multiset(a) == multiset(a') + multiset{x};
    assert multiset(b) == multiset(b1 + b2) + multiset{x};
    assert multiset(a') == multiset(a) - multiset{x};
    assert multiset(b1 + b2) == multiset(b) - multiset{x};
  }

  /** The order of the loop does not change what is collected, only where:
      any two orders of the same elements collect the same multiset. */
  lemma {:induction false} CollectPermutation<X, T>(a: seq<X>, b: seq<X>, f: X -> seq<T>)
    requires multiset(a) == multiset(b)
    ensures multiset(Collect(a, f)) == multiset(Collect(b, f))
    decreases |a|
  {
    if a != [] {
      var x := a[|a| - 1];
      var a' := a[..|a| - 1];
      assert x in multiset(b) by { assert x in multiset(a); }
      var k :| 0 <= k < |b| && b[k] == x;
      MultisetRemove(a, b, k);
      CollectPermutation(a', b[..k] + b[k + 1..], f);
      assert a == a' + [x];
      CollectSnoc(a', x, f);
      CollectRemove(b, k, f);
    }
  }

  // =====================================================================
  // deck.toml (validateDeckToml)
  // =====================================================================

  /** The fields of the decoded deck.toml the rules read. */
  datatype DeckSection = DeckSection(id: string, name: string, version: string, schemaVersion: string)

  datatype CardBackVariant = CardBackVariant(image: string)

  datatype CardBackSection = CardBackSection(defaultVariant: string, variants: map<string, CardBackVariant>)

  datatype DeckConfig = DeckConfig(deck: DeckSection, cardBacks: Option<CardBackSection>)

  /** Where Validate stops: deck.toml missing, or not decoded. */
  function DeckTomlError(fs: FileSystem, deckPath: string, deckToml: Option<DeckConfig>): (r: Option<ValidateError>)
    ensures r.Some? <==> fs.IsNotExist(PathJoin(deckPath, "deck.toml")) || deckToml.None?
    ensures fs.IsNotExist(PathJoin(deckPath, "deck.toml")) ==> r == Some(DeckTomlNotFound(deckPath))
  {
    if fs.IsNotExist(PathJoin(deckPath, "deck.toml")) then Some(DeckTomlNotFound(deckPath))
    else if deckToml.None? then Some(DeckTomlParseError)
    else None
  }

  /** The "required" error of one field of the [deck] section. */
  function Required(value: string, field: string): seq<Issue>
  {
    if value == "" then [FieldRequired(field)] else []
  }

  /** The error of the schema version, required and only "1.0" supported. */
  function SchemaErrors(version: string): seq<Issue>
  {
    if version == "" then [FieldRequired("schema_version")]
    else if version != "1.0" then [UnsupportedSchemaVersion(version)]
    else []
  }

  /** The errors for the [deck] section's required fields. */
  function FieldErrors(d: DeckSection): seq<Issue>
  {
    Required(d.id, "id") + Required(d.name, "name") + Required(d.version, "version") + SchemaErrors(d.schemaVersion)
  }

  /** One "required" error per empty field of the [deck] section. */
  lemma FieldRequiredSpec(d: DeckSection)
    ensures FieldRequired("id") in FieldErrors(d) <==> d.id == ""
    ensures FieldRequired("name") in FieldErrors(d) <==> d.name == ""
    ensures FieldRequired("version") in FieldErrors(d) <==> d.version == ""
    ensures FieldRequired("schema_version") in FieldErrors(d) <==> d.schemaVersion == ""
  {
    var e1, e2, e3, e4 := Required(d.id, "id"), Required(d.name, "name"), Required(d.version, "version"), SchemaErrors(d.schemaVersion);
    forall x
      ensures x in FieldErrors(d) <==> x in e1 || x in e2 || x in e3 || x in e4
    {
      assert FieldErrors(d) == ((e1 + e2) + e3) + e4;
    }
  }

  /** A schema version other than "1.0" is unsupported; nothing but the
      "required" errors and that one is reported. */
  lemma SchemaVersionSpec(d: DeckSection)
    ensures UnsupportedSchemaVersion(d.schemaVersion) in FieldErrors(d) <==> d.schemaVersion != "" && d.schemaVersion != "1.0"
    ensures forall e :: e in FieldErrors(d) ==> e.FieldRequired? || e == UnsupportedSchemaVersion(d.schemaVersion)
  {
  }

  /** The error of one card-back variant, if any. */
  function VariantError(fs: FileSystem, deckPath: string, variants: map<string, CardBackVariant>, name: string): seq<Issue>
  {
    if name !in variants then []
    else if variants[name].image == "" then [BackImageRequired(name)]
    else if fs.IsNotExist(PathJoin(deckPath, variants[name].image)) then [BackImageNotFound(variants[name].image)]
    else []
  }

  function VariantErrorOf(fs: FileSystem, deckPath: string, variants: map<string, CardBackVariant>): string -> seq<Issue>
  {
    name => VariantError(fs, deckPath, variants, name)
  }

  /** The card-back variant errors, visiting the variants in `order`. */
  function VariantErrors(fs: FileSystem, deckPath: string, variants: map<string, CardBackVariant>, order: seq<string>): seq<Issue>
  {
    Collect(order, VariantErrorOf(fs, deckPath, variants))
  }

  /** `order` visits each key exactly once: a possible order of Go's map
      iteration. */
  predicate IsOrdering(order: seq<string>, keys: set<string>)
  {
    multiset(order) == multiset(keys)
  }

  /** Whatever order Go's map iteration takes, the same errors are reported. */
  lemma VariantErrorsOrderFree(fs: FileSystem, deckPath: string, variants: map<string, CardBackVariant>, o1: seq<string>, o2: seq<string>)
    requires IsOrdering(o1, variants.Keys) && IsOrdering(o2, variants.Keys)
    ensures multiset(VariantErrors(fs, deckPath, variants, o1)) == multiset(VariantErrors(fs, deckPath, variants, o2))
  {
    CollectPermutation(o1, o2, VariantErrorOf(fs, deckPath, variants));
  }

  /** A variant without an image is reported by name; an image is reported
      as not found exactly when some variant names it and it does not exist. */
  lemma VariantErrorsSpec(fs: FileSystem, deckPath: string, variants: map<string, CardBackVariant>, order: seq<string>, name: string, img: string)
    requires IsOrdering(order, variants.Keys)
    ensures BackImageRequired(name) in VariantErrors(fs, deckPath, variants, order)
            <==> name in variants && variants[name].image == ""
    ensures BackImageNotFound(img) in VariantErrors(fs, deckPath, variants, order)
            <==> exists n :: n in variants && variants[n].image == img && img != "" && fs.IsNotExist(PathJoin(deckPath, img))
  {
    var f := VariantErrorOf(fs, deckPath, variants);
    assert forall n :: n in order <==> n in variants by {
      forall n ensures n in order <==> n in variants {
        assert n in order <==> n in multiset(order);
      }
    }
    CollectMember(order, f, BackImageRequired(name));
    if name in variants {
      assert f(name) == VariantError(fs, deckPath, variants, name);
    }
    CollectMember(order, f, BackImageNotFound(img));
    assert forall n :: n in order ==> (BackImageNotFound(img) in f(n)
      <==> variants[n].image == img && img != "" && fs.IsNotExist(PathJoin(deckPath, img))) by {
      forall n | n in order
        ensures BackImageNotFound(img) in f(n)
            <==> variants[n].image == img && img != "" && fs.IsNotExist(PathJoin(deckPath, img))
      {
        assert f(n) == VariantError(fs, deckPath, variants, n);
      }
    }
  }

  /** The keys of the card-back variants, none without a [card_backs] table. */
  function BackKeys(cfg: DeckConfig): set<string>
  {
    if cfg.cardBacks.Some? then cfg.cardBacks.value.variants.Keys else {}
  }

  /** The errors validateDeckToml adds to a decoded deck.toml, with the
      card-back variants visited in `order`. */
  function DeckTomlIssues(fs: FileSystem, deckPath: string, cfg: DeckConfig, order: seq<string>): seq<Issue>
  {
    FieldErrors(cfg.deck)
    + match cfg.cardBacks
      case None => []
      case Some(backs) => BackIssues(fs, deckPath, backs, order)
  }

  /** The errors for a [card_backs] table, its variants visited in `order`. */
  function BackIssues(fs: FileSystem, deckPath: string, backs: CardBackSection, order: seq<string>): seq<Issue>
  {
    (if |backs.variants| > 1 && backs.defaultVariant == "" then [DefaultBackRequired] else [])
    + VariantErrors(fs, deckPath, backs.variants, order)
  }

  /** A default card back is required exactly when there are several
      variants and none is named the default. */
  lemma DefaultBackRule(fs: FileSystem, deckPath: string, cfg: DeckConfig, order: seq<string>)
    requires IsOrdering(order, BackKeys(cfg))
    ensures DefaultBackRequired in DeckTomlIssues(fs, deckPath, cfg, order)
            <==> cfg.cardBacks.Some? && |cfg.cardBacks.value.variants| > 1 && cfg.cardBacks.value.defaultVariant == ""
  {
    var fe := FieldErrors(cfg.deck);
    SchemaVersionSpec(cfg.deck);
    assert DefaultBackRequired !in fe;
    if cfg.cardBacks.Some? {
      var backs := cfg.cardBacks.value;
      var head := if |backs.variants| > 1 && backs.defaultVariant == "" then [DefaultBackRequired] else [];
      var ve := VariantErrors(fs, deckPath, backs.variants, order);
      NoDefaultBackInVariants(fs, deckPath, backs.variants, order);
      assert DeckTomlIssues(fs, deckPath, cfg, order) == fe + (head + ve);
    } else {
      assert DeckTomlIssues(fs, deckPath, cfg, order) == fe + [];
    }
  }

  lemma NoDefaultBackInVariants(fs: FileSystem, deckPath: string, variants: map<string, CardBackVariant>, order: seq<string>)
    ensures DefaultBackRequired !in VariantErrors(fs, deckPath, variants, order)
  {
    var f := VariantErrorOf(fs, deckPath, variants);
    CollectMember(order, f, DefaultBackRequired);
    forall x | x in order
      ensures DefaultBackRequired !in f(x)
    {
      assert f(x) == VariantError(fs, deckPath, variants, x);
    }
  }

  // =====================================================================
  // Image directories (validateDirectoryStructure and the arcana checks)
  // =====================================================================

  const MaxInt64: nat := 0x7FFF_FFFF_FFFF_FFFF

  /** fmt's skipping of space before a number when scanning with Sscanf: a
      newline is not skipped (it ends the scan with an error). */
  function SkipBlanks(s: string): (r: string)
    ensures |r| <= |s|
  {
    if s != [] && IsSpace(s[0]) && s[0] != '\n' then SkipBlanks(s[1..]) else s
  }

  /** The value of the leading run of decimal digits of `s`, read after the
      value `acc` of the digits already read. */
  function LeadingValue(s: string, acc: nat): nat
  {
    if s == [] || !IsDigit(s[0]) then acc else LeadingValue(s[1..], acc * 10 + (s[0] as int - '0' as int))
  }

  /** `fmt.Sscanf(name, "h%d", new(int))` succeeds: an 'h', optional space,
      an optional sign, at least one digit, and a value that fits in 64
      bits; whatever follows the digits is not read. */
  predicate ScansHeight(name: string)
    ensures ScansHeight(name) ==> |name| >= 2 && name[0] == 'h'
  {
    && name != [] && name[0] == 'h'
    && var t := SkipBlanks(name[1..]);
       var negative := t != [] && t[0] == '-';
       var u := if t != [] && (t[0] == '+' || t[0] == '-') then t[1..] else t;
       && u != [] && IsDigit(u[0])
       && LeadingValue(u, 0) <= (if negative then MaxInt64 + 1 else MaxInt64)
  }

  /** A tail that does not start with a digit is not read. */
  lemma {:induction false} LeadingValueStops(d: string, rest: string, acc: nat)
    requires AllDigits(d)
    requires rest == [] || !IsDigit(rest[0])
    ensures LeadingValue(d + rest, acc) == LeadingValue(d, acc)
    decreases |d|
  {
    if d != [] {
      assert (d + rest)[1..] == d[1..] + rest;
      LeadingValueStops(d[1..], rest, acc * 10 + (d[0] as int - '0' as int));
    }
  }

  /** One more digit at the end multiplies by ten and adds it. */
  lemma {:induction false} LeadingValueSnoc(d: string, c: char, acc: nat)
    requires AllDigits(d) && IsDigit(c)
    ensures LeadingValue(d + [c], acc) == LeadingValue(d, acc) * 10 + (c as int - '0' as int)
    decreases |d|
  {
    if d == [] {
      assert LeadingValue([c], acc) == LeadingValue([], acc * 10 + (c as int - '0' as int));
    } else {
      assert (d + [c])[1..] == d[1..] + [c];
      LeadingValueSnoc(d[1..], c, acc * 10 + (d[0] as int - '0' as int));
    }
  }

  /** Reading the digits from the front gives their value. */
  lemma {:induction false} LeadingValueOfDigits(d: string)
    requires AllDigits(d)
    ensures LeadingValue(d, 0) == DigitsValue(d)
    decreases |d|
  {
    if d != [] {
      var d' := d[..|d| - 1];
      assert d == d' + [d[|d| - 1]];
      LeadingValueOfDigits(d');
      LeadingValueSnoc(d', d[|d| - 1], 0);
    }
  }

  /** Every "h<height>" directory name scans, whatever follows the digits
      when it does not start with a digit (e.g. "h1080" and "h1080px"). */
  lemma HeightNameScans(n: nat, rest: string)
    requires n <= MaxInt64
    requires rest == [] || !IsDigit(rest[0])
    ensures ScansHeight("h" + Decimal(n) + rest)
  {
    var name := "h" + Decimal(n) + rest;
    var d := Decimal(n);
    assert name[1..] == d + rest;
    assert IsDigit(d[0]);
    assert !IsSpace(d[0]);
    assert SkipBlanks(d + rest) == d + rest;
    LeadingValueStops(d, rest, 0);
    LeadingValueOfDigits(d);
    DecimalValue(n);
  }

  /** A height that does not fit in 64 bits does not scan. */
  lemma HeightTooLarge(n: nat)
    requires n > MaxInt64
    ensures !ScansHeight("h" + Decimal(n))
  {
    var name := "h" + Decimal(n);
    var d := Decimal(n);
    assert name[1..] == d;
    assert IsDigit(d[0]);
    assert SkipBlanks(name[1..]) == d;
    LeadingValueOfDigits(d);
    DecimalValue(n);
  }

  /** A name whose 'h' is followed by a letter does not scan (e.g. "hidden"). */
  lemma WordNameDoesNotScan(w: string)
    requires w != [] && ('a' <= w[0] <= 'z' || 'A' <= w[0] <= 'Z')
    ensures !ScansHeight("h" + w)
  {
    assert ("h" + w)[1..] == w;
    assert !IsSpace(w[0]);
    assert SkipBlanks(w) == w;
  }

  /** The source's HasPrefix(name, "h") test adds nothing to the scan. */
  lemma ScansHeightHasPrefix(name: string)
    requires ScansHeight(name)
    ensures HasPrefix(name, "h")
  {
    assert name[..1] == "h";
  }

  /** A raster image directory: a directory named h<number>. */
  predicate IsRasterDir(e: DirEntry)
  {
    e.isDir && HasPrefix(e.name, "h") && ScansHeight(e.name)
  }

  function RasterDirOf(deckPath: string): DirEntry -> seq<string>
  {
    e => if IsRasterDir(e) then [PathJoin(deckPath, e.name)] else []
  }

  /** The image directories the arcana checks visit: scalable/ if present,
      then the raster directories in listing order. */
  function ImageDirs(fs: FileSystem, deckPath: string): seq<string>
  {
    (if fs.StatOk(PathJoin(deckPath, "scalable")) then [PathJoin(deckPath, "scalable")] else [])
    + match fs.ReadDir(deckPath)
      case None => []
      case Some(entries) => Collect(entries, RasterDirOf(deckPath))
  }

  /** validateDirectoryStructure's search: scalable/ or a raster directory. */
  predicate HasImageDir(fs: FileSystem, deckPath: string)
  {
    || fs.StatOk(PathJoin(deckPath, "scalable"))
    || (fs.ReadDir(deckPath).Some? &&
        exists i :: 0 <= i < |fs.ReadDir(deckPath).value| && IsRasterDir(fs.ReadDir(deckPath).value[i]))
  }

  /** The structure check finds an image directory exactly when the arcana
      checks have one to visit. */
  lemma HasImageDirSpec(fs: FileSystem, deckPath: string)
    ensures HasImageDir(fs, deckPath) <==> ImageDirs(fs, deckPath) != []
  {
    if fs.ReadDir(deckPath).Some? {
      var entries := fs.ReadDir(deckPath).value;
      var f := RasterDirOf(deckPath);
      CollectNone(entries, f);
      if exists i :: 0 <= i < |entries| && IsRasterDir(entries[i]) {
        var i :| 0 <= i < |entries| && IsRasterDir(entries[i]);
        assert f(entries[i]) != [];
      }
      if Collect(entries, f) != [] {
        var e :| e in entries && f(e) != [];
      }
    }
  }

  /** The issues validateDirectoryStructure adds. */
  function StructureIssues(fs: FileSystem, deckPath: string): ValidationResults
  {
    ValidationResults(
      if HasImageDir(fs, deckPath) then [] else [NoImageDirectories],
      (if fs.IsNotExist(PathJoin(deckPath, "card_backs")) then [CardBacksDirMissing] else [])
      + (if fs.IsNotExist(PathJoin(deckPath, "names")) then [NamesDirMissing] else []))
  }

  /** Exactly one error when there is no image directory, and none
      otherwise; the directory checks only warn. */
  lemma StructureIssuesSpec(fs: FileSystem, deckPath: string)
    ensures StructureIssues(fs, deckPath).errors == if ImageDirs(fs, deckPath) == [] then [NoImageDirectories] else []
  {
    HasImageDirSpec(fs, deckPath);
  }

  /** The issues validateCardBacks adds. */
  function CardBackIssues(fs: FileSystem, deckPath: string): ValidationResults
  {
    var dir := PathJoin(deckPath, "card_backs");
    if fs.IsNotExist(dir) then NoIssues
    else match fs.ReadDir(dir)
      case None => Errors([CardBacksReadError])
      case Some(entries) => if |entries| == 0 then Errors([NoCardBacks]) else NoIssues
  }

  /** A missing card_backs directory is warned about once, by the structure
      check, and not reported again. */
  lemma CardBacksWarnedOnce(fs: FileSystem, deckPath: string)
    ensures CardBacksDirMissing in StructureIssues(fs, deckPath).warnings <==> fs.IsNotExist(PathJoin(deckPath, "card_backs"))
    ensures fs.IsNotExist(PathJoin(deckPath, "card_backs")) ==> CardBackIssues(fs, deckPath) == NoIssues
  {
  }

  // =====================================================================
  // Card image files (validateMajorArcana, validateMinorArcana)
  // =====================================================================

  const ImageExtensions: seq<string> := [".svg", ".png", ".jpg", ".jpeg", ".webp"]

  /** Some image file of the card exists under one of the extensions. */
  predicate HasImage(fs: FileSystem, dir: string, card: string)
  {
    exists j :: 0 <= j < |ImageExtensions| && fs.StatOk(PathJoin(dir, card + ImageExtensions[j]))
  }

  function MissingImageOf(fs: FileSystem, dir: string): string -> seq<string>
  {
    card => if HasImage(fs, dir, card) then [] else [card]
  }

  /** The cards of `cards`, in order, without an image file in `dir`. */
  function MissingImages(fs: FileSystem, dir: string, cards: seq<string>): seq<string>
  {
    Collect(cards, MissingImageOf(fs, dir))
  }

  /** A card is listed as missing exactly when it has no image file. */
  lemma MissingImagesSpec(fs: FileSystem, dir: string, cards: seq<string>, card: string)
    ensures card in MissingImages(fs, dir, cards) <==> card in cards && !HasImage(fs, dir, card)
    ensures MissingImages(fs, dir, cards) == [] <==> forall c :: c in cards ==> HasImage(fs, dir, c)
  {
    var f := MissingImageOf(fs, dir);
    CollectMember(cards, f, card);
    CollectNone(cards, f);
    assert forall c :: c in cards ==> (f(c) == [] <==> HasImage(fs, dir, c));
  }

  /** The error for one image directory's major arcana, if any. */
  function MajorDirErrors(fs: FileSystem, imageDir: string): seq<Issue>
  {
    var dir := PathJoin(imageDir, "major_arcana");
    if fs.IsNotExist(dir) then []
    else
      var missing := MissingImages(fs, dir, Decks.MajorNumbers);
      if missing == [] then [] else [MissingMajorCards(imageDir, missing)]
  }

  function MajorDirErrorsOf(fs: FileSystem): string -> seq<Issue>
  {
    d => MajorDirErrors(fs, d)
  }

  /** Some image directory has the sub-directory `sub`. */
  predicate HasSubdir(fs: FileSystem, imageDirs: seq<string>, sub: string)
  {
    exists k :: 0 <= k < |imageDirs| && !fs.IsNotExist(PathJoin(imageDirs[k], sub))
  }

  /** One more directory of a search for a sub-directory. */
  lemma HasSubdirStep(fs: FileSystem, imageDirs: seq<string>, k: nat, sub: string)
    requires k < |imageDirs|
    ensures HasSubdir(fs, imageDirs[..k + 1], sub)
            <==> HasSubdir(fs, imageDirs[..k], sub) || !fs.IsNotExist(PathJoin(imageDirs[k], sub))
  {
    if HasSubdir(fs, imageDirs[..k + 1], sub) && fs.IsNotExist(PathJoin(imageDirs[k], sub)) {
      var j :| 0 <= j < k + 1 && !fs.IsNotExist(PathJoin(imageDirs[..k + 1][j], sub));
      assert imageDirs[..k][j] == imageDirs[j];
    }
    if HasSubdir(fs, imageDirs[..k], sub) {
      var j :| 0 <= j < k && !fs.IsNotExist(PathJoin(imageDirs[..k][j], sub));
      assert imageDirs[..k + 1][j] == imageDirs[j];
    }
    if !fs.IsNotExist(PathJoin(imageDirs[k], sub)) {
      assert imageDirs[..k + 1][k] == imageDirs[k];
    }
  }

  /** The end of a search over all the image directories. */
  lemma HasSubdirAll(fs: FileSystem, imageDirs: seq<string>, sub: string)
    ensures HasSubdir(fs, imageDirs[..|imageDirs|], sub) == HasSubdir(fs, imageDirs, sub)
  {
    assert imageDirs[..|imageDirs|] == imageDirs;
  }

  /** The errors validateMajorArcana adds. */
  function MajorIssues(fs: FileSystem, imageDirs: seq<string>): seq<Issue>
  {
    Collect(imageDirs, MajorDirErrorsOf(fs)) + (if HasSubdir(fs, imageDirs, "major_arcana") then [] else [MajorDirNotFound])
  }

  /** No image directory has the sub-directory exactly when each lacks it. */
  lemma HasSubdirSpec(fs: FileSystem, imageDirs: seq<string>, sub: string)
    ensures !HasSubdir(fs, imageDirs, sub) <==> forall d :: d in imageDirs ==> fs.IsNotExist(PathJoin(d, sub))
  {
    if !forall d :: d in imageDirs ==> fs.IsNotExist(PathJoin(d, sub)) {
      var d :| d in imageDirs && !fs.IsNotExist(PathJoin(d, sub));
      var k :| 0 <= k < |imageDirs| && imageDirs[k] == d;
    }
  }

  /** An image directory is reported with exactly its missing major cards,
      when it has a major_arcana directory and some are missing. */
  lemma MajorCardsReported(fs: FileSystem, imageDirs: seq<string>, imageDir: string, cards: seq<string>)
    ensures MissingMajorCards(imageDir, cards) in MajorIssues(fs, imageDirs)
            <==> && imageDir in imageDirs
                 && !fs.IsNotExist(PathJoin(imageDir, "major_arcana"))
                 && cards == MissingImages(fs, PathJoin(imageDir, "major_arcana"), Decks.MajorNumbers)
                 && cards != []
  {
    var f := MajorDirErrorsOf(fs);
    CollectMember(imageDirs, f, MissingMajorCards(imageDir, cards));
    assert forall d :: d in imageDirs ==> f(d) == MajorDirErrors(fs, d);
  }

  /** The major_arcana directory's absence is reported once, exactly when no
      image directory has one. */
  lemma MajorDirNotFoundSpec(fs: FileSystem, imageDirs: seq<string>)
    ensures MajorDirNotFound in MajorIssues(fs, imageDirs)
            <==> forall d :: d in imageDirs ==> fs.IsNotExist(PathJoin(d, "major_arcana"))
  {
    var f := MajorDirErrorsOf(fs);
    CollectMember(imageDirs, f, MajorDirNotFound);
    assert forall d :: d in imageDirs ==> f(d) == MajorDirErrors(fs, d);
    HasSubdirSpec(fs, imageDirs, "major_arcana");
  }

  /** The error for one suit directory of a minor_arcana directory. */
  function SuitErrors(fs: FileSystem, minorDir: string, suit: string): seq<Issue>
  {
    var suitDir := PathJoin(minorDir, suit);
    if fs.IsNotExist(suitDir) then [MissingSuitDir(suit, minorDir)]
    else
      var missing := MissingImages(fs, suitDir, Decks.Ranks);
      if missing == [] then [] else [MissingSuitCards(suit, missing)]
  }

  function SuitErrorsOf(fs: FileSystem, minorDir: string): string -> seq<Issue>
  {
    suit => SuitErrors(fs, minorDir, suit)
  }

  /** The errors for one image directory's minor arcana. */
  function MinorDirErrors(fs: FileSystem, imageDir: string): seq<Issue>
  {
    var dir := PathJoin(imageDir, "minor_arcana");
    if fs.IsNotExist(dir) then [] else Collect(Decks.Suits, SuitErrorsOf(fs, dir))
  }

  function MinorDirErrorsOf(fs: FileSystem): string -> seq<Issue>
  {
    d => MinorDirErrors(fs, d)
  }

  /** The errors validateMinorArcana adds. */
  function MinorIssues(fs: FileSystem, imageDirs: seq<string>): seq<Issue>
  {
    Collect(imageDirs, MinorDirErrorsOf(fs)) + (if HasSubdir(fs, imageDirs, "minor_arcana") then [] else [MinorDirNotFound])
  }

  /** In one minor_arcana directory, a suit is reported as a missing
      directory, or with exactly its missing ranks when some are missing. */
  lemma SuitErrorsSpec(fs: FileSystem, minorDir: string, suit: string, ranks: seq<string>)
    ensures MissingSuitDir(suit, minorDir) in Collect(Decks.Suits, SuitErrorsOf(fs, minorDir))
            <==> suit in Decks.Suits && fs.IsNotExist(PathJoin(minorDir, suit))
    ensures MissingSuitCards(suit, ranks) in Collect(Decks.Suits, SuitErrorsOf(fs, minorDir))
            <==> && suit in Decks.Suits
                 && !fs.IsNotExist(PathJoin(minorDir, suit))
                 && ranks == MissingImages(fs, PathJoin(minorDir, suit), Decks.Ranks)
                 && ranks != []
  {
    var f := SuitErrorsOf(fs, minorDir);
    assert forall s :: s in Decks.Suits ==> f(s) == SuitErrors(fs, minorDir, s);
    CollectMember(Decks.Suits, f, MissingSuitDir(suit, minorDir));
    CollectMember(Decks.Suits, f, MissingSuitCards(suit, ranks));
  }

  /** The minor_arcana directory's absence is reported once, exactly when no
      image directory has one. */
  lemma MinorDirNotFoundSpec(fs: FileSystem, imageDirs: seq<string>)
    ensures MinorDirNotFound in MinorIssues(fs, imageDirs)
            <==> forall d :: d in imageDirs ==> fs.IsNotExist(PathJoin(d, "minor_arcana"))
  {
    var f := MinorDirErrorsOf(fs);
    CollectMember(imageDirs, f, MinorDirNotFound);
    forall d | d in imageDirs
      ensures MinorDirNotFound !in f(d)
    {
      var dir := PathJoin(d, "minor_arcana");
      if !fs.IsNotExist(dir) {
        CollectMember(Decks.Suits, SuitErrorsOf(fs, dir), MinorDirNotFound);
      }
    }
    HasSubdirSpec(fs, imageDirs, "minor_arcana");
  }

  // =====================================================================
  // Language files (validateNames)
  // =====================================================================

  /** The tables of a language file the validator reads. A nil table is
      None; the names tables are tagged `toml:"-"` and never decoded, so
      they are not modelled. */
  datatype SuitNameSection = SuitNameSection(altText: Option<map<string, string>>)

  datatype MajorArcanaNameSection = MajorArcanaNameSection(altText: Option<map<string, string>>)

  datatype MinorArcanaNameSection = MinorArcanaNameSection(
    wands: Option<SuitNameSection>,
    cups: Option<SuitNameSection>,
    swords: Option<SuitNameSection>,
    pentacles: Option<SuitNameSection>)

  datatype NameConfig = NameConfig(
    majorArcana: Option<MajorArcanaNameSection>,
    minorArcana: Option<MinorArcanaNameSection>)

  /** GetSuit: the section of a suit by its name; None for any other name. */
  function GetSuit(m: MinorArcanaNameSection, suit: string): (r: Option<SuitNameSection>)
    ensures suit !in Decks.Suits ==> r.None?
    ensures r.Some? ==> r in {m.wands, m.cups, m.swords, m.pentacles}
  {
    match suit
    case "wands" => m.wands
    case "cups" => m.cups
    case "swords" => m.swords
    case "pentacles" => m.pentacles
    case _ => None
  }

  predicate SuitHasAltText(s: Option<SuitNameSection>)
  {
    s.Some? && s.value.altText.Some?
  }

  /** The language file has an alt_text table somewhere, looking up the four
      suits through GetSuit. */
  predicate AnyAltText(cfg: NameConfig)
  {
    || (cfg.majorArcana.Some? && cfg.majorArcana.value.altText.Some?)
    || (cfg.minorArcana.Some? &&
        exists j :: 0 <= j < |Decks.Suits| && SuitHasAltText(GetSuit(cfg.minorArcana.value, Decks.Suits[j])))
  }

  /** The lookup through GetSuit reaches each of the four suit sections. */
  lemma AnyAltTextSpec(cfg: NameConfig)
    ensures AnyAltText(cfg) <==>
              || (cfg.majorArcana.Some? && cfg.majorArcana.value.altText.Some?)
              || (cfg.minorArcana.Some? &&
                  var m := cfg.minorArcana.value;
                  SuitHasAltText(m.wands) || SuitHasAltText(m.cups) || SuitHasAltText(m.swords) || SuitHasAltText(m.pentacles))
  {
    if cfg.minorArcana.Some? {
      var m := cfg.minorArcana.value;
      assert GetSuit(m, Decks.Suits[0]) == m.wands;
      assert GetSuit(m, Decks.Suits[1]) == m.cups;
      assert GetSuit(m, Decks.Suits[2]) == m.swords;
      assert GetSuit(m, Decks.Suits[3]) == m.pentacles;
    }
  }

  /** An entry validateNames reads as a language file. */
  predicate IsLanguageFile(e: DirEntry)
  {
    !e.isDir && HasSuffix(e.name, ".toml")
  }

  /** The warnings for a decoded language file. */
  function LanguageWarnings(file: string, cfg: NameConfig): seq<Issue>
  {
    (if cfg.majorArcana.None? then [MissingMajorSection(file)] else [])
    + (if cfg.minorArcana.None? then [MissingMinorSection(file)] else [])
    + (if AnyAltText(cfg) then [] else [NoAltText(file)])
  }

  /** The error of one entry of names/: a language file that does not decode. */
  function EntryErrors(namesDir: string, decoded: map<string, NameConfig>, e: DirEntry): seq<Issue>
  {
    if IsLanguageFile(e) && PathJoin(namesDir, e.name) !in decoded then [LanguageParseError(e.name)] else []
  }

  function EntryErrorsOf(namesDir: string, decoded: map<string, NameConfig>): DirEntry -> seq<Issue>
  {
    e => EntryErrors(namesDir, decoded, e)
  }

  /** The warnings of one entry of names/: those of a decoded language file. */
  function EntryWarnings(namesDir: string, decoded: map<string, NameConfig>, e: DirEntry): seq<Issue>
  {
    if IsLanguageFile(e) && PathJoin(namesDir, e.name) in decoded
    then LanguageWarnings(e.name, decoded[PathJoin(namesDir, e.name)]) else []
  }

  function EntryWarningsOf(namesDir: string, decoded: map<string, NameConfig>): DirEntry -> seq<Issue>
  {
    e => EntryWarnings(namesDir, decoded, e)
  }

  /** Some entry is a language file that decodes. */
  predicate HasValidLanguageFile(namesDir: string, entries: seq<DirEntry>, decoded: map<string, NameConfig>)
  {
    exists i :: 0 <= i < |entries| && IsLanguageFile(entries[i]) && PathJoin(namesDir, entries[i].name) in decoded
  }

  /** One more entry of the search for a valid language file. */
  lemma HasValidLanguageFileStep(namesDir: string, entries: seq<DirEntry>, i: nat, decoded: map<string, NameConfig>)
    requires i < |entries|
    ensures HasValidLanguageFile(namesDir, entries[..i + 1], decoded)
            <==> || HasValidLanguageFile(namesDir, entries[..i], decoded)
                 || (IsLanguageFile(entries[i]) && PathJoin(namesDir, entries[i].name) in decoded)
  {
    assert entries[..i + 1][i] == entries[i];
    assert forall j :: 0 <= j < i ==> entries[..i + 1][j] == entries[..i][j];
  }

  /** The issues validateNames adds, given the decoded language files by
      path (a path absent from `decoded` does not decode). */
  function NamesIssues(fs: FileSystem, deckPath: string, decoded: map<string, NameConfig>): ValidationResults
  {
    var namesDir := PathJoin(deckPath, "names");
    if fs.IsNotExist(namesDir) then NoIssues
    else match fs.ReadDir(namesDir)
      case None => Errors([NamesReadError])
      case Some(entries) =>
        if |entries| == 0 then Errors([NoLanguageFiles])
        else
          ValidationResults(
            Collect(entries, EntryErrorsOf(namesDir, decoded))
            + (if HasValidLanguageFile(namesDir, entries, decoded) then [] else [NoValidLanguageFiles]),
            Collect(entries, EntryWarningsOf(namesDir, decoded)))
  }

  /** An empty names directory gives one error and nothing else; "no valid
      language files" is reported exactly when the directory lists entries
      and none of them is a language file that decodes. */
  lemma NamesIssuesSpec(fs: FileSystem, deckPath: string, decoded: map<string, NameConfig>)
    ensures var namesDir := PathJoin(deckPath, "names");
            && (!fs.IsNotExist(namesDir) && fs.ReadDir(namesDir) == Some([])
                ==> NamesIssues(fs, deckPath, decoded) == Errors([NoLanguageFiles]))
            && (NoValidLanguageFiles in NamesIssues(fs, deckPath, decoded).errors
                <==> && !fs.IsNotExist(namesDir)
                     && fs.ReadDir(namesDir).Some?
                     && |fs.ReadDir(namesDir).value| > 0
                     && !HasValidLanguageFile(namesDir, fs.ReadDir(namesDir).value, decoded))
  {
    var namesDir := PathJoin(deckPath, "names");
    if !fs.IsNotExist(namesDir) && fs.ReadDir(namesDir).Some? {
      CollectMember(fs.ReadDir(namesDir).value, EntryErrorsOf(namesDir, decoded), NoValidLanguageFiles);
    }
  }

  /** A language file that decodes is reported with a parse error never, and
      one that does not decode always. */
  lemma LanguageParseErrorSpec(fs: FileSystem, deckPath: string, decoded: map<string, NameConfig>, e: DirEntry)
    requires var namesDir := PathJoin(deckPath, "names");
             !fs.IsNotExist(namesDir) && fs.ReadDir(namesDir).Some? && e in fs.ReadDir(namesDir).value
    requires IsLanguageFile(e)
    ensures LanguageParseError(e.name) in NamesIssues(fs, deckPath, decoded).errors
            <==> PathJoin(PathJoin(deckPath, "names"), e.name) !in decoded
  {
    var namesDir := PathJoin(deckPath, "names");
    var entries := fs.ReadDir(namesDir).value;
    var f := EntryErrorsOf(namesDir, decoded);
    CollectMember(entries, f, LanguageParseError(e.name));
    if LanguageParseError(e.name) in Collect(entries, f) {
      var x :| x in entries && LanguageParseError(e.name) in f(x);
      assert x.name == e.name;
    }
  }

  // =====================================================================
  // ANSI art (validateAnsiArt, validateAnsiDirectory)
  // =====================================================================

  function MissingAnsiOf(fs: FileSystem, dir: string): string -> seq<string>
  {
    card => if fs.IsNotExist(PathJoin(dir, card + ".ansi")) then [card] else []
  }

  /** The cards of `cards`, in order, whose .ansi file does not exist. */
  function MissingAnsi(fs: FileSystem, dir: string, cards: seq<string>): seq<string>
  {
    Collect(cards, MissingAnsiOf(fs, dir))
  }

  lemma MissingAnsiSpec(fs: FileSystem, dir: string, cards: seq<string>, card: string)
    ensures card in MissingAnsi(fs, dir, cards) <==> card in cards && fs.IsNotExist(PathJoin(dir, card + ".ansi"))
  {
    CollectMember(cards, MissingAnsiOf(fs, dir), card);
  }

  /** The warning for one suit directory of an ANSI minor_arcana directory. */
  function AnsiSuitWarnings(fs: FileSystem, minorDir: string, dirName: string, suit: string): seq<Issue>
  {
    var suitDir := PathJoin(minorDir, suit);
    if fs.IsNotExist(suitDir) then [MissingAnsiSuitDir(suit, dirName)]
    else
      var missing := MissingAnsi(fs, suitDir, Decks.Ranks);
      if missing == [] then [] else [MissingAnsiSuitCards(suit, dirName, missing)]
  }

  function AnsiSuitWarningsOf(fs: FileSystem, minorDir: string, dirName: string): string -> seq<Issue>
  {
    suit => AnsiSuitWarnings(fs, minorDir, dirName, suit)
  }

  /** The warnings validateAnsiDirectory adds for one ANSI directory: those
      about its major_arcana directory, then those about its minor_arcana
      directory. */
  function AnsiDirWarnings(fs: FileSystem, ansiDir: string, dirName: string): seq<Issue>
  {
    AnsiMajorWarnings(fs, PathJoin(ansiDir, "major_arcana"), dirName)
      + AnsiMinorWarnings(fs, PathJoin(ansiDir, "minor_arcana"), dirName)
  }

  /** A missing major_arcana directory, or the major cards without art. */
  function AnsiMajorWarnings(fs: FileSystem, majorDir: string, dirName: string): seq<Issue>
  {
    if fs.IsNotExist(majorDir) then [AnsiMajorDirMissing(dirName)]
    else
      var missing := MissingAnsi(fs, majorDir, Decks.MajorNumbers);
      if missing == [] then [] else [MissingAnsiMajor(dirName, missing)]
  }

  /** A missing minor_arcana directory, or the warnings of each suit. */
  function AnsiMinorWarnings(fs: FileSystem, minorDir: string, dirName: string): seq<Issue>
  {
    if fs.IsNotExist(minorDir) then [AnsiMinorDirMissing(dirName)]
    else Collect(Decks.Suits, AnsiSuitWarningsOf(fs, minorDir, dirName))
  }

  /** A directory of the deck that validateAnsiArt checks. */
  predicate IsAnsiDir(e: DirEntry)
  {
    e.isDir && HasPrefix(e.name, "ansi")
  }

  /** Whether some entry is an ANSI directory. */
  predicate HasAnsiDir(entries: seq<DirEntry>)
  {
    exists i :: 0 <= i < |entries| && IsAnsiDir(entries[i])
  }

  lemma HasAnsiDirStep(entries: seq<DirEntry>, k: nat)
    requires k < |entries|
    ensures HasAnsiDir(entries[..k + 1]) <==> HasAnsiDir(entries[..k]) || IsAnsiDir(entries[k])
  {
    if HasAnsiDir(entries[..k + 1]) && !IsAnsiDir(entries[k]) {
      var j :| 0 <= j < k + 1 && IsAnsiDir(entries[..k + 1][j]);
      assert entries[..k][j] == entries[j];
    }
    if HasAnsiDir(entries[..k]) {
      var j :| 0 <= j < k && IsAnsiDir(entries[..k][j]);
      assert entries[..k + 1][j] == entries[j];
    }
    if IsAnsiDir(entries[k]) {
      assert entries[..k + 1][k] == entries[k];
    }
  }

  /** The warnings of one entry of the deck directory. */
  function AnsiEntryWarnings(fs: FileSystem, deckPath: string, e: DirEntry): seq<Issue>
  {
    if IsAnsiDir(e) then AnsiDirWarnings(fs, PathJoin(deckPath, e.name), e.name) else []
  }

  function AnsiEntryWarningsOf(fs: FileSystem, deckPath: string): DirEntry -> seq<Issue>
  {
    e => AnsiEntryWarnings(fs, deckPath, e)
  }

  /** The issues validateAnsiArt adds. */
  function AnsiIssues(fs: FileSystem, deckPath: string): ValidationResults
  {
    match fs.ReadDir(deckPath)
    case None => Errors([DeckDirReadError])
    case Some(entries) =>
      Warnings(Collect(entries, AnsiEntryWarningsOf(fs, deckPath))
               + (if HasAnsiDir(entries) then [] else [NoAnsiDirs]))
  }

  /** The ANSI checks only warn, except that an unreadable deck directory is
      an error; then nothing else is reported. */
  lemma AnsiIssuesOnlyWarn(fs: FileSystem, deckPath: string)
    ensures AnsiIssues(fs, deckPath).errors == if fs.ReadDir(deckPath).None? then [DeckDirReadError] else []
    ensures fs.ReadDir(deckPath).None? ==> AnsiIssues(fs, deckPath).warnings == []
  {
  }

  // =====================================================================
  // All checks
  // =====================================================================

  /** Everything Validate adds once deck.toml has decoded, the card-back
      variants visited in `order`. */
  function AllIssues(fs: FileSystem, deckPath: string, cfg: DeckConfig, order: seq<string>, decoded: map<string, NameConfig>)
    : ValidationResults
  {
    Errors(DeckTomlIssues(fs, deckPath, cfg, order))
      .Then(StructureIssues(fs, deckPath))
      .Then(CardBackIssues(fs, deckPath))
      .Then(Errors(MajorIssues(fs, ImageDirs(fs, deckPath))))
      .Then(Errors(MinorIssues(fs, ImageDirs(fs, deckPath))))
      .Then(NamesIssues(fs, deckPath, decoded))
      .Then(AnsiIssues(fs, deckPath))
  }

  // =====================================================================
  // The validator
  // =====================================================================

  lemma AppendAssoc<T>(a: seq<T>, b: seq<T>, c: seq<T>)
    ensures a + b + c == a + (b + c)
  {
  }

  /** Adding a and then b adds a.Then(b). */
  lemma ThenAssoc(r: ValidationResults, a: ValidationResults, b: ValidationResults)
    ensures r.Then(a).Then(b) == r.Then(a.Then(b))
  {
    AppendAssoc(r.errors, a.errors, b.errors);
    AppendAssoc(r.warnings, a.warnings, b.warnings);
  }

  /** The end of a loop over all of `xs`. */
  lemma CollectAll<X, T>(xs: seq<X>, f: X -> seq<T>)
    ensures Collect(xs[..|xs|], f) == Collect(xs, f)
  {
    assert xs[..|xs|] == xs;
  }

  /** One step of a loop that appends f(x) for each x after `prefix`. */
  lemma CollectStepAfter<X, T>(prefix: seq<T>, xs: seq<X>, i: nat, f: X -> seq<T>)
    requires i < |xs|
    ensures prefix + Collect(xs[..i + 1], f) == prefix + Collect(xs[..i], f) + f(xs[i])
  {
    CollectStep(xs, i, f);
    AppendAssoc(prefix, Collect(xs[..i], f), f(xs[i]));
  }

  /** The search over the image extensions for one card: found exactly when
      some image file of the card exists. */
  method FindImage(fs: FileSystem, dir: string, card: string) returns (found: bool)
    ensures found <==> HasImage(fs, dir, card)
  {
    found := false;
    for j := 0 to |ImageExtensions|
      invariant !found ==> forall j' :: 0 <= j' < j ==> !fs.StatOk(PathJoin(dir, card + ImageExtensions[j']))
      invariant found ==> HasImage(fs, dir, card)
    {
      if fs.StatOk(PathJoin(dir, card + ImageExtensions[j])) {
        found := true;
        break;
      }
    }
  }

  /** The 22 major arcana cards without an image file in `dir`, in order. */
  method MissingMajorFiles(fs: FileSystem, dir: string) returns (missing: seq<string>)
    ensures missing == MissingImages(fs, dir, Decks.MajorNumbers)
  {
    var f := MissingImageOf(fs, dir);
    missing := [];
    for i := 0 to 22
      invariant missing == Collect(Decks.MajorNumbers[..i], f)
    {
      var cardName := ZeroPad2(i);
      Decks.MajorNumberPadded(i);
      var found := FindImage(fs, dir, cardName);
      if !found {
        missing := missing + [cardName];
      }
      CollectStep(Decks.MajorNumbers, i, f);
    }
    CollectAll(Decks.MajorNumbers, f);
  }

  /** The 14 ranks of a suit without an image file in `dir`, in order. */
  method MissingRankFiles(fs: FileSystem, dir: string) returns (missing: seq<string>)
    ensures missing == MissingImages(fs, dir, Decks.Ranks)
  {
    var f := MissingImageOf(fs, dir);
    missing := [];
    for i := 0 to |Decks.Ranks|
      invariant missing == Collect(Decks.Ranks[..i], f)
    {
      var rank := Decks.Ranks[i];
      var found := FindImage(fs, dir, rank);
      if !found {
        missing := missing + [rank];
      }
      CollectStep(Decks.Ranks, i, f);
    }
    CollectAll(Decks.Ranks, f);
  }

  /** The 22 major arcana cards without a .ansi file in `dir`, in order. */
  method MissingAnsiMajorFiles(fs: FileSystem, dir: string) returns (missing: seq<string>)
    ensures missing == MissingAnsi(fs, dir, Decks.MajorNumbers)
  {
    var f := MissingAnsiOf(fs, dir);
    missing := [];
    for i := 0 to 22
      invariant missing == Collect(Decks.MajorNumbers[..i], f)
    {
      var cardName := ZeroPad2(i);
      Decks.MajorNumberPadded(i);
      if fs.IsNotExist(PathJoin(dir, cardName + ".ansi")) {
        missing := missing + [cardName];
      }
      CollectStep(Decks.MajorNumbers, i, f);
    }
    CollectAll(Decks.MajorNumbers, f);
  }

  /** The 14 ranks of a suit without a .ansi file in `dir`, in order. */
  method MissingAnsiRankFiles(fs: FileSystem, dir: string) returns (missing: seq<string>)
    ensures missing == MissingAnsi(fs, dir, Decks.Ranks)
  {
    var f := MissingAnsiOf(fs, dir);
    missing := [];
    for i := 0 to |Decks.Ranks|
      invariant missing == Collect(Decks.Ranks[..i], f)
    {
      var rank := Decks.Ranks[i];
      if fs.IsNotExist(PathJoin(dir, rank + ".ansi")) {
        missing := missing + [rank];
      }
      CollectStep(Decks.Ranks, i, f);
    }
    CollectAll(Decks.Ranks, f);
  }

  /** The alt_text search of validateNames over one language file. */
  method HasAltText(cfg: NameConfig) returns (hasAltText: bool)
    ensures hasAltText <==> AnyAltText(cfg)
  {
    hasAltText := false;
    if cfg.majorArcana.Some? && cfg.majorArcana.value.altText.Some? {
      hasAltText := true;
    }
    if !hasAltText && cfg.minorArcana.Some? {
      for j := 0 to |Decks.Suits|
        invariant !hasAltText ==> forall j' :: 0 <= j' < j ==> !SuitHasAltText(GetSuit(cfg.minorArcana.value, Decks.Suits[j']))
        invariant hasAltText ==> AnyAltText(cfg)
      {
        var suitConfig := GetSuit(cfg.minorArcana.value, Decks.Suits[j]);
        if suitConfig.Some? && suitConfig.value.altText.Some? {
          hasAltText := true;
          break;
        }
      }
    }
  }

  /** TakeOne for the multiset of a set, as a map iteration spends its keys. */
  lemma SpendKey(todo: set<string>, k: string)
    requires k in todo
    ensures multiset(todo) == multiset(todo - {k}) + multiset{k}
  {
    assert todo == (todo - {k}) + {k};
  }

  /** The validator of one deck directory; each check appends what it finds
      to `results`. */
  class Validator {
    const deckPath: string
    var results: ValidationResults

    /** NewValidator */
    constructor (deckPath: string)
      ensures this.deckPath == deckPath && results == NoIssues
    {
      this.deckPath := deckPath;
      results := NoIssues;
    }

    /** Validate: stops with an error, and adds nothing, when deck.toml is
        missing or does not decode; otherwise runs every check in turn.
        `fs` is the file system, `deckToml` the decoded deck.toml (None when
        decoding fails) and `decoded` the language files that decode, by
        path; `order` is the order Go's map iteration visits the card-back
        variants in. Only files os.Stat finds can have decoded. */
    method Validate(fs: FileSystem, deckToml: Option<DeckConfig>, decoded: map<string, NameConfig>)
      returns (res: ValidationResults, err: Option<ValidateError>, ghost order: seq<string>)
      requires deckToml.Some? ==> fs.StatOk(PathJoin(deckPath, "deck.toml"))
      requires forall p :: p in decoded ==> fs.StatOk(p)
      modifies this
      ensures err == DeckTomlError(fs, deckPath, deckToml)
      ensures err.Some? ==> results == old(results)
      ensures err.None? ==> && IsOrdering(order, BackKeys(deckToml.value))
                            && results == old(results).Then(AllIssues(fs, deckPath, deckToml.value, order, decoded))
      ensures Extends(old(results), results)
      ensures res == results
    {
      ghost var r0 := results;
      err, order := ValidateDeckToml(fs, deckToml);
      if err.Some? {
        return results, err, order;
      }
      ghost var added := Errors(DeckTomlIssues(fs, deckPath, deckToml.value, order));
      ValidateDirectoryStructure(fs);
      ThenAssoc(r0, added, StructureIssues(fs, deckPath));
      added := added.Then(StructureIssues(fs, deckPath));
      ValidateCardBacks(fs);
      ThenAssoc(r0, added, CardBackIssues(fs, deckPath));
      added := added.Then(CardBackIssues(fs, deckPath));
      ValidateMajorArcana(fs);
      ThenAssoc(r0, added, Errors(MajorIssues(fs, ImageDirs(fs, deckPath))));
      added := added.Then(Errors(MajorIssues(fs, ImageDirs(fs, deckPath))));
      ValidateMinorArcana(fs);
      ThenAssoc(r0, added, Errors(MinorIssues(fs, ImageDirs(fs, deckPath))));
      added := added.Then(Errors(MinorIssues(fs, ImageDirs(fs, deckPath))));
      ValidateNames(fs, decoded);
      ThenAssoc(r0, added, NamesIssues(fs, deckPath, decoded));
      added := added.Then(NamesIssues(fs, deckPath, decoded));
      ValidateAnsiArt(fs);
      ThenAssoc(r0, added, AnsiIssues(fs, deckPath));
      added := added.Then(AnsiIssues(fs, deckPath));
      res := results;
    }

    /** validateDeckToml */
    method ValidateDeckToml(fs: FileSystem, deckToml: Option<DeckConfig>) returns (err: Option<ValidateError>, ghost order: seq<string>)
      modifies this
      ensures err == DeckTomlError(fs, deckPath, deckToml)
      ensures err.Some? ==> results == old(results)
      ensures err.None? ==> && IsOrdering(order, BackKeys(deckToml.value))
                            && results == old(results).Then(Errors(DeckTomlIssues(fs, deckPath, deckToml.value, order)))
    {
      order := [];
      if fs.IsNotExist(PathJoin(deckPath, "deck.toml")) {
        return Some(DeckTomlNotFound(deckPath)), order;
      }
      if deckToml.None? {
        return Some(DeckTomlParseError), order;
      }
      var cfg := deckToml.value;
      err := None;
      CheckDeckFields(cfg.deck);
      if cfg.cardBacks.Some? {
        ghost var r1 := results;
        order := CheckCardBacks(fs, cfg.cardBacks.value);
        ghost var backIssues := BackIssues(fs, deckPath, cfg.cardBacks.value, order);
        AppendAssoc(old(results).errors, FieldErrors(cfg.deck), backIssues);
      } else {
        assert IsOrdering(order, {});
      }
    }

    /** The rules of validateDeckToml on the [deck] section. */
    method CheckDeckFields(d: DeckSection)
      modifies this
      ensures results == old(results).Then(Errors(FieldErrors(d)))
    {
      if d.id == "" {
        results := results.WithError(FieldRequired("id"));
      }
      assert results.errors == old(results).errors + Required(d.id, "id");
      if d.name == "" {
        results := results.WithError(FieldRequired("name"));
      }
      AppendAssoc(old(results).errors, Required(d.id, "id"), Required(d.name, "name"));
      ghost var fields := Required(d.id, "id") + Required(d.name, "name");
      assert results.errors == old(results).errors + fields;
      if d.version == "" {
        results := results.WithError(FieldRequired("version"));
      }
      AppendAssoc(old(results).errors, fields, Required(d.version, "version"));
      fields := fields + Required(d.version, "version");
      assert results.errors == old(results).errors + fields;
      if d.schemaVersion == "" {
        results := results.WithError(FieldRequired("schema_version"));
      } else if d.schemaVersion != "1.0" {
        results := results.WithError(UnsupportedSchemaVersion(d.schemaVersion));
      }
      AppendAssoc(old(results).errors, fields, SchemaErrors(d.schemaVersion));
    }

    /** The rules of validateDeckToml on a [card_backs] table. */
    method CheckCardBacks(fs: FileSystem, backs: CardBackSection) returns (ghost order: seq<string>)
      modifies this
      ensures IsOrdering(order, backs.variants.Keys)
      ensures results == old(results).Then(Errors(BackIssues(fs, deckPath, backs, order)))
    {
      ghost var defaultError: seq<Issue> := [];
      if |backs.variants| > 1 && backs.defaultVariant == "" {
        results := results.WithError(DefaultBackRequired);
        defaultError := [DefaultBackRequired];
      }
      order := CheckVariants(fs, backs.variants);
      AppendAssoc(old(results).errors, defaultError, VariantErrors(fs, deckPath, backs.variants, order));
    }

    /** The loop of validateDeckToml over the card-back variants, in the
        order Go's map iteration picks (`order`). */
    method CheckVariants(fs: FileSystem, variants: map<string, CardBackVariant>) returns (ghost order: seq<string>)
      modifies this
      ensures IsOrdering(order, variants.Keys)
      ensures results == old(results).Then(Errors(VariantErrors(fs, deckPath, variants, order)))
    {
      var f := VariantErrorOf(fs, deckPath, variants);
      order := [];
      var todo := variants.Keys;
      while todo != {}
        invariant todo <= variants.Keys
        invariant multiset(order) + multiset(todo) == multiset(variants.Keys)
        invariant results.errors == old(results).errors + Collect(order, f)
        invariant results.warnings == old(results).warnings
        decreases |todo|
      {
        var name :| name in todo;
        var variant := variants[name];
        if variant.image == "" {
          results := results.WithError(BackImageRequired(name));
        } else if fs.IsNotExist(PathJoin(deckPath, variant.image)) {
          results := results.WithError(BackImageNotFound(variant.image));
        }
        assert f(name) == VariantError(fs, deckPath, variants, name);
        CollectSnoc(order, name, f);
        AppendAssoc(old(results).errors, Collect(order, f), f(name));
        SpendKey(todo, name);
        order := order + [name];
        todo := todo - {name};
      }
    }

    /** validateDirectoryStructure */
    method ValidateDirectoryStructure(fs: FileSystem)
      modifies this
      ensures results == old(results).Then(StructureIssues(fs, deckPath))
    {
      if fs.IsNotExist(PathJoin(deckPath, "card_backs")) {
        results := results.WithWarning(CardBacksDirMissing);
      }
      var found := false;
      if fs.StatOk(PathJoin(deckPath, "scalable")) {
        found := true;
      }
      var listing := fs.ReadDir(deckPath);
      if listing.Some? {
        var entries := listing.value;
        for i := 0 to |entries|
          invariant !found ==> !fs.StatOk(PathJoin(deckPath, "scalable")) && forall j :: 0 <= j < i ==> !IsRasterDir(entries[j])
          invariant found ==> HasImageDir(fs, deckPath)
        {
          var entry := entries[i];
          if entry.isDir && HasPrefix(entry.name, "h") {
            if ScansHeight(entry.name) {
              found := true;
              break;
            }
          }
        }
      }
      if !found {
        results := results.WithError(NoImageDirectories);
      }
      if fs.IsNotExist(PathJoin(deckPath, "names")) {
        results := results.WithWarning(NamesDirMissing);
      }
    }

    /** validateCardBacks */
    method ValidateCardBacks(fs: FileSystem)
      modifies this
      ensures results == old(results).Then(CardBackIssues(fs, deckPath))
    {
      var dir := PathJoin(deckPath, "card_backs");
      if fs.IsNotExist(dir) {
        return;
      }
      var listing := fs.ReadDir(dir);
      if listing.None? {
        results := results.WithError(CardBacksReadError);
        return;
      }
      if |listing.value| == 0 {
        results := results.WithError(NoCardBacks);
      }
    }

    /** The image directories of validateMajorArcana and validateMinorArcana
        (the two search the deck directory the same way). */
    method FindImageDirs(fs: FileSystem) returns (dirs: seq<string>)
      ensures dirs == ImageDirs(fs, deckPath)
    {
      dirs := [];
      if fs.StatOk(PathJoin(deckPath, "scalable")) {
        dirs := dirs + [PathJoin(deckPath, "scalable")];
      }
      var listing := fs.ReadDir(deckPath);
      if listing.Some? {
        dirs := AppendRasterDirs(dirs, listing.value);
      }
    }

    /** The entry loop of the image-directory search: every directory named
        like h<height> is appended. */
    method AppendRasterDirs(first: seq<string>, entries: seq<DirEntry>) returns (dirs: seq<string>)
      ensures dirs == first + Collect(entries, RasterDirOf(deckPath))
    {
      dirs := first;
      var f := RasterDirOf(deckPath);
      for i := 0 to |entries|
        invariant dirs == first + Collect(entries[..i], f)
      {
        var entry := entries[i];
        if entry.isDir && HasPrefix(entry.name, "h") {
          if ScansHeight(entry.name) {
            dirs := dirs + [PathJoin(deckPath, entry.name)];
          }
        }
        CollectStepAfter(first, entries, i, f);
      }
      CollectAll(entries, f);
    }

    /** validateMajorArcana */
    method ValidateMajorArcana(fs: FileSystem)
      modifies this
      ensures results == old(results).Then(Errors(MajorIssues(fs, ImageDirs(fs, deckPath))))
    {
      var imageDirs := FindImageDirs(fs);
      var found := CheckMajorDirs(fs, imageDirs);
      ghost var dirErrors := Collect(imageDirs, MajorDirErrorsOf(fs));
      if !found {
        results := results.WithError(MajorDirNotFound);
        AppendAssoc(old(results).errors, dirErrors, [MajorDirNotFound]);
      }
    }

    /** The loop of validateMajorArcana over the image directories: whether
        one has a major_arcana directory, and the errors for each. */
    method CheckMajorDirs(fs: FileSystem, imageDirs: seq<string>) returns (found: bool)
      modifies this
      ensures found == HasSubdir(fs, imageDirs, "major_arcana")
      ensures results == old(results).Then(Errors(Collect(imageDirs, MajorDirErrorsOf(fs))))
    {
      var f := MajorDirErrorsOf(fs);
      found := false;
      for k := 0 to |imageDirs|
        invariant results == old(results).Then(Errors(Collect(imageDirs[..k], f)))
        invariant found == HasSubdir(fs, imageDirs[..k], "major_arcana")
      {
        CollectStepAfter(old(results).errors, imageDirs, k, f);
        HasSubdirStep(fs, imageDirs, k, "major_arcana");
        var present := CheckMajorDir(fs, imageDirs[k]);
        found := found || present;
      }
      CollectAll(imageDirs, f);
      HasSubdirAll(fs, imageDirs, "major_arcana");
    }

    /** The body of validateMajorArcana's loop, for one image directory:
        whether it has a major_arcana directory, and the error for it. */
    method CheckMajorDir(fs: FileSystem, imageDir: string) returns (present: bool)
      modifies this
      ensures present <==> !fs.IsNotExist(PathJoin(imageDir, "major_arcana"))
      ensures results == old(results).Then(Errors(MajorDirErrors(fs, imageDir)))
    {
      var dir := PathJoin(imageDir, "major_arcana");
      if fs.IsNotExist(dir) {
        return false;
      }
      present := true;
      var missing := MissingMajorFiles(fs, dir);
      if |missing| > 0 {
        results := results.WithError(MissingMajorCards(imageDir, missing));
      }
    }

    /** validateMinorArcana */
    method ValidateMinorArcana(fs: FileSystem)
      modifies this
      ensures results == old(results).Then(Errors(MinorIssues(fs, ImageDirs(fs, deckPath))))
    {
      var imageDirs := FindImageDirs(fs);
      var found := CheckMinorDirs(fs, imageDirs);
      ghost var dirErrors := Collect(imageDirs, MinorDirErrorsOf(fs));
      if !found {
        results := results.WithError(MinorDirNotFound);
        AppendAssoc(old(results).errors, dirErrors, [MinorDirNotFound]);
      }
    }

    /** The loop of validateMinorArcana over the image directories: whether
        one has a minor_arcana directory, and the errors for each. */
    method CheckMinorDirs(fs: FileSystem, imageDirs: seq<string>) returns (found: bool)
      modifies this
      ensures found == HasSubdir(fs, imageDirs, "minor_arcana")
      ensures results == old(results).Then(Errors(Collect(imageDirs, MinorDirErrorsOf(fs))))
    {
      var f := MinorDirErrorsOf(fs);
      found := false;
      for k := 0 to |imageDirs|
        invariant results == old(results).Then(Errors(Collect(imageDirs[..k], f)))
        invariant found == HasSubdir(fs, imageDirs[..k], "minor_arcana")
      {
        CollectStepAfter(old(results).errors, imageDirs, k, f);
        HasSubdirStep(fs, imageDirs, k, "minor_arcana");
        var present := CheckMinorDir(fs, imageDirs[k]);
        found := found || present;
      }
      CollectAll(imageDirs, f);
      HasSubdirAll(fs, imageDirs, "minor_arcana");
    }

    /** The body of validateMinorArcana's loop, for one image directory:
        whether it has a minor_arcana directory, and the errors for it. */
    method CheckMinorDir(fs: FileSystem, imageDir: string) returns (present: bool)
      modifies this
      ensures present <==> !fs.IsNotExist(PathJoin(imageDir, "minor_arcana"))
      ensures results == old(results).Then(Errors(MinorDirErrors(fs, imageDir)))
    {
      var dir := PathJoin(imageDir, "minor_arcana");
      if fs.IsNotExist(dir) {
        return false;
      }
      present := true;
      CheckSuits(fs, dir);
    }

    /** The suit loop of validateMinorArcana over one minor_arcana directory. */
    method CheckSuits(fs: FileSystem, minorDir: string)
      modifies this
      ensures results == old(results).Then(Errors(Collect(Decks.Suits, SuitErrorsOf(fs, minorDir))))
    {
      var f := SuitErrorsOf(fs, minorDir);
      for i := 0 to |Decks.Suits|
        invariant results == old(results).Then(Errors(Collect(Decks.Suits[..i], f)))
      {
        CollectStepAfter(old(results).errors, Decks.Suits, i, f);
        var suit := Decks.Suits[i];
        var suitDir := PathJoin(minorDir, suit);
        if fs.IsNotExist(suitDir) {
          results := results.WithError(MissingSuitDir(suit, minorDir));
          continue;
        }
        var missing := MissingRankFiles(fs, suitDir);
        if |missing| > 0 {
          results := results.WithError(MissingSuitCards(suit, missing));
        }
      }
      CollectAll(Decks.Suits, f);
    }

    /** validateNames, with the language files that decode given by path. */
    method ValidateNames(fs: FileSystem, decoded: map<string, NameConfig>)
      modifies this
      ensures results == old(results).Then(NamesIssues(fs, deckPath, decoded))
    {
      var namesDir := PathJoin(deckPath, "names");
      if fs.IsNotExist(namesDir) {
        return;
      }
      var listing := fs.ReadDir(namesDir);
      if listing.None? {
        results := results.WithError(NamesReadError);
        return;
      }
      var entries := listing.value;
      if |entries| == 0 {
        results := results.WithError(NoLanguageFiles);
        return;
      }
      var found := CheckLanguageFiles(namesDir, entries, decoded);
      ghost var nameErrors := Collect(entries, EntryErrorsOf(namesDir, decoded));
      if !found {
        results := results.WithError(NoValidLanguageFiles);
        AppendAssoc(old(results).errors, nameErrors, [NoValidLanguageFiles]);
      }
    }

    /** The loop of validateNames over the entries of names/: whether one is
        a language file that decodes, and what is reported for each. */
    method CheckLanguageFiles(namesDir: string, entries: seq<DirEntry>, decoded: map<string, NameConfig>) returns (found: bool)
      modifies this
      ensures found == HasValidLanguageFile(namesDir, entries, decoded)
      ensures results == old(results).Then(ValidationResults(Collect(entries, EntryErrorsOf(namesDir, decoded)),
                                                            Collect(entries, EntryWarningsOf(namesDir, decoded))))
    {
      var fe := EntryErrorsOf(namesDir, decoded);
      var fw := EntryWarningsOf(namesDir, decoded);
      found := false;
      for i := 0 to |entries|
        invariant results == old(results).Then(ValidationResults(Collect(entries[..i], fe), Collect(entries[..i], fw)))
        invariant found <==> HasValidLanguageFile(namesDir, entries[..i], decoded)
      {
        CollectStepAfter(old(results).errors, entries, i, fe);
        CollectStepAfter(old(results).warnings, entries, i, fw);
        HasValidLanguageFileStep(namesDir, entries, i, decoded);
        var valid := CheckLanguageFile(namesDir, entries[i], decoded);
        found := found || valid;
      }
      CollectAll(entries, fe);
      CollectAll(entries, fw);
      assert entries[..|entries|] == entries;
    }

    /** The body of validateNames' loop, for one entry of names/: whether it
        is a language file that decodes, and what is reported for it. */
    method CheckLanguageFile(namesDir: string, entry: DirEntry, decoded: map<string, NameConfig>) returns (valid: bool)
      modifies this
      ensures valid <==> IsLanguageFile(entry) && PathJoin(namesDir, entry.name) in decoded
      ensures results == old(results).Then(ValidationResults(EntryErrors(namesDir, decoded, entry), EntryWarnings(namesDir, decoded, entry)))
    {
      valid := false;
      if !entry.isDir && HasSuffix(entry.name, ".toml") {
        var langPath := PathJoin(namesDir, entry.name);
        if langPath !in decoded {
          results := results.WithError(LanguageParseError(entry.name));
          return;
        }
        var langConfig := decoded[langPath];
        valid := true;
        if langConfig.majorArcana.None? {
          results := results.WithWarning(MissingMajorSection(entry.name));
        }
        if langConfig.minorArcana.None? {
          results := results.WithWarning(MissingMinorSection(entry.name));
        }
        var hasAltText := HasAltText(langConfig);
        if !hasAltText {
          results := results.WithWarning(NoAltText(entry.name));
        }
      }
    }

    /** validateAnsiArt */
    method ValidateAnsiArt(fs: FileSystem)
      modifies this
      ensures results == old(results).Then(AnsiIssues(fs, deckPath))
    {
      var listing := fs.ReadDir(deckPath);
      if listing.None? {
        results := results.WithError(DeckDirReadError);
        return;
      }
      var entries := listing.value;
      var found := CheckAnsiDirs(fs, entries);
      ghost var ansiWarnings := Collect(entries, AnsiEntryWarningsOf(fs, deckPath));
      if !found {
        results := results.WithWarning(NoAnsiDirs);
        AppendAssoc(old(results).warnings, ansiWarnings, [NoAnsiDirs]);
      }
    }

    /** The loop of validateAnsiArt over the entries of the deck directory:
        whether one is an ANSI directory, and the warnings for each. */
    method CheckAnsiDirs(fs: FileSystem, entries: seq<DirEntry>) returns (found: bool)
      modifies this
      ensures found == HasAnsiDir(entries)
      ensures results == old(results).Then(Warnings(Collect(entries, AnsiEntryWarningsOf(fs, deckPath))))
    {
      var f := AnsiEntryWarningsOf(fs, deckPath);
      found := false;
      for i := 0 to |entries|
        invariant results == old(results).Then(Warnings(Collect(entries[..i], f)))
        invariant found == HasAnsiDir(entries[..i])
      {
        CollectStepAfter(old(results).warnings, entries, i, f);
        HasAnsiDirStep(entries, i);
        var entry := entries[i];
        var isAnsi := CheckAnsiEntry(fs, entry);
        found := found || isAnsi;
      }
      CollectAll(entries, f);
      assert entries[..|entries|] == entries;
    }

    /** One pass of the entry loop of validateAnsiArt. */
    method CheckAnsiEntry(fs: FileSystem, entry: DirEntry) returns (isAnsi: bool)
      modifies this
      ensures isAnsi == IsAnsiDir(entry)
      ensures results == old(results).Then(Warnings(AnsiEntryWarningsOf(fs, deckPath)(entry)))
    {
      isAnsi := entry.isDir && HasPrefix(entry.name, "ansi");
      if isAnsi {
        ValidateAnsiDirectory(fs, PathJoin(deckPath, entry.name), entry.name);
      }
    }

    /** validateAnsiDirectory */
    method ValidateAnsiDirectory(fs: FileSystem, ansiDir: string, dirName: string)
      modifies this
      ensures results == old(results).Then(Warnings(AnsiDirWarnings(fs, ansiDir, dirName)))
    {
      var majorDir := PathJoin(ansiDir, "major_arcana");
      CheckAnsiMajor(fs, majorDir, dirName);
      var minorDir := PathJoin(ansiDir, "minor_arcana");
      CheckAnsiMinor(fs, minorDir, dirName);
      AppendAssoc(old(results).warnings, AnsiMajorWarnings(fs, majorDir, dirName), AnsiMinorWarnings(fs, minorDir, dirName));
    }

    /** The major_arcana part of validateAnsiDirectory. */
    method CheckAnsiMajor(fs: FileSystem, majorDir: string, dirName: string)
      modifies this
      ensures results == old(results).Then(Warnings(AnsiMajorWarnings(fs, majorDir, dirName)))
    {
      if fs.IsNotExist(majorDir) {
        results := results.WithWarning(AnsiMajorDirMissing(dirName));
      } else {
        var missing := MissingAnsiMajorFiles(fs, majorDir);
        if |missing| > 0 {
          results := results.WithWarning(MissingAnsiMajor(dirName, missing));
        }
      }
    }

    /** The minor_arcana part of validateAnsiDirectory. */
    method CheckAnsiMinor(fs: FileSystem, minorDir: string, dirName: string)
      modifies this
      ensures results == old(results).Then(Warnings(AnsiMinorWarnings(fs, minorDir, dirName)))
    {
      if fs.IsNotExist(minorDir) {
        results := results.WithWarning(AnsiMinorDirMissing(dirName));
      } else {
        CheckAnsiSuits(fs, minorDir, dirName);
      }
    }

    /** The suit loop of validateAnsiDirectory over its minor_arcana directory. */
    method CheckAnsiSuits(fs: FileSystem, minorDir: string, dirName: string)
      modifies this
      ensures results == old(results).Then(Warnings(Collect(Decks.Suits, AnsiSuitWarningsOf(fs, minorDir, dirName))))
    {
      var f := AnsiSuitWarningsOf(fs, minorDir, dirName);
      for i := 0 to |Decks.Suits|
        invariant results == old(results).Then(Warnings(Collect(Decks.Suits[..i], f)))
      {
        CollectStepAfter(old(results).warnings, Decks.Suits, i, f);
        var suit := Decks.Suits[i];
        var suitDir := PathJoin(minorDir, suit);
        if fs.IsNotExist(suitDir) {
          results := results.WithWarning(MissingAnsiSuitDir(suit, dirName));
          continue;
        }
        var missing := MissingAnsiRankFiles(fs, suitDir);
        if |missing| > 0 {
          results := results.WithWarning(MissingAnsiSuitCards(suit, dirName, missing));
        }
      }
      CollectAll(Decks.Suits, f);
    }
  }
}
