/** cmd/show.go: how the `show` command finds a card's file, turns a resized
    image into half-block terminal art, strips escape sequences to measure
    it, wraps the description and lays art and text out side by side.
    The terminal, the file system and the image libraries are parameters. */
module Show {
  import opened Results
  import opened Strings
  import opened Cards

  // =====================================================================
  // max and contains
  // =====================================================================

  function Max(a: int, b: int): (r: int)
    ensures r >= a && r >= b
    ensures r == a || r == b
  {
    if a > b then a else b
  }

  /** contains: whether `item` occurs in `slice`. */
  function Contains(slice: seq<string>, item: string): (r: bool)
    ensures r <==> item in slice
  {
    if slice == [] then false
    else if slice[0] == item then true
    else Contains(slice[1..], item)
  }

  // =====================================================================
  // buildCardPath
  // =====================================================================

  datatype PathError = InvalidCardId(id: string)

  /** Whether the dotted parts of a card ID have one of the four shapes
      buildCardPath accepts. */
  predicate IsPathShape(parts: seq<string>)
    requires |parts| >= 1
  {
    || (parts[0] == "major_arcana" && |parts| == 2)
    || (parts[0] == "minor_arcana" && |parts| == 3)
    || (parts[0] == "custom_cards" && (|parts| == 3 || |parts| == 4))
  }

  /** filepath.Join(baseDir, dir, file): `file` inside the directory `dir`
      (itself possibly several elements) under `baseDir`. */
  function CardFile(baseDir: string, dir: string, file: string): (p: string)
    ensures HasPrefix(p, baseDir + "/") && HasSuffix(p, "/" + file)
  {
    var p := baseDir + "/" + dir + "/" + file;
    assert p == (baseDir + "/") + (dir + "/" + file);
    assert p == (baseDir + "/" + dir) + ("/" + file);
    p
  }

  /** buildCardPath: the file of a card under `baseDir`, named after the last
      part of its ID plus `extension`. The source indexes parts[0], so the
      parts may not be empty (strings.Split never returns an empty list). */
  function BuildCardPath(baseDir: string, parts: seq<string>, extension: string): (r: Result<string, PathError>)
    requires |parts| >= 1
    ensures r.Ok? <==> IsPathShape(parts)
    ensures r.Ok? ==> HasPrefix(r.value, baseDir + "/") && HasSuffix(r.value, "/" + (parts[|parts| - 1] + extension))
    ensures r.Err? ==> r.error == InvalidCardId(Join(parts, "."))
  {
    if parts[0] == "major_arcana" && |parts| == 2 then
      Ok(CardFile(baseDir, "major_arcana", parts[1] + extension))
    else if parts[0] == "minor_arcana" && |parts| == 3 then
      Ok(CardFile(baseDir, "minor_arcana/" + parts[1], parts[2] + extension))
    else if parts[0] == "custom_cards" && |parts| == 3 then
      Ok(CardFile(baseDir, parts[0] + "/" + parts[1], parts[2] + extension))
    else if parts[0] == "custom_cards" && |parts| == 4 then
      Ok(CardFile(baseDir, parts[0] + "/" + parts[1] + "/" + parts[2], parts[3] + extension))
    else
      Err(InvalidCardId(Join(parts, ".")))
  }

  /** The ID of a major card maps to `<base>/major_arcana/<number><ext>`. */
  lemma MajorCardPath(baseDir: string, number: string, extension: string)
    requires '.' !in number
    ensures BuildCardPath(baseDir, Split("major_arcana." + number, '.'), extension)
         == Ok(CardFile(baseDir, "major_arcana", number + extension))
  {
    MajorIdParts(number);
  }

  lemma MajorIdParts(number: string)
    requires '.' !in number
    ensures Split("major_arcana." + number, '.') == ["major_arcana", number]
  {
    assert "major_arcana." + number == "major_arcana" + ['.'] + number;
    SplitTwo("major_arcana", '.', number);
  }

  /** The ID of a minor card maps to `<base>/minor_arcana/<suit>/<rank><ext>`. */
  lemma MinorCardPath(baseDir: string, suit: string, rank: string, extension: string)
    requires '.' !in suit && '.' !in rank
    ensures BuildCardPath(baseDir, Split("minor_arcana." + suit + "." + rank, '.'), extension)
         == Ok(CardFile(baseDir, "minor_arcana/" + suit, rank + extension))
  {
    MinorIdParts(suit, rank);
    assert "minor_arcana" != "major_arcana";
  }

  lemma MinorIdParts(suit: string, rank: string)
    requires '.' !in suit && '.' !in rank
    ensures Split("minor_arcana." + suit + "." + rank, '.') == ["minor_arcana", suit, rank]
  {
    assert "minor_arcana." + suit + "." + rank == "minor_arcana" + ['.'] + suit + ['.'] + rank;
    SplitThree("minor_arcana", '.', suit, rank);
  }

  // =====================================================================
  // wrapText
  // =====================================================================

  /** Widths below this are replaced by FallbackWrapWidth. */
  const MinWrapWidth := 10
  const FallbackWrapWidth := 40

  /** The width wrapText actually wraps to. */
  function WrapWidth(width: int): (w: int)
    ensures w >= MinWrapWidth
  {
    if width < MinWrapWidth then FallbackWrapWidth else width
  }

  /** The words of one wrapped line: its text between single spaces. */
  function LineWords(line: string): seq<string>
  {
    Split(line, ' ')
  }

  /** The words of all lines, line after line. */
  function WordsOfLines(lines: seq<string>): seq<string>
  {
    if lines == [] then [] else WordsOfLines(lines[..|lines| - 1]) + LineWords(lines[|lines| - 1])
  }

  /** Every line fits the width or holds a single word. */
  ghost predicate LinesFit(lines: seq<string>, w: int)
  {
    forall k :: 0 <= k < |lines| ==> Utf8Length(lines[k]) <= w || |LineWords(lines[k])| == 1
  }

  /** The first word of every line would not have fitted on the line before. */
  ghost predicate LinesGreedy(lines: seq<string>, w: int)
  {
    forall k :: 0 <= k < |lines| - 1 ==>
      Utf8Length(lines[k]) + 1 + Utf8Length(LineWords(lines[k + 1])[0]) > w
  }

  /** What wrapText promises of its result for `text` and `width`, measuring
      lines with Go's len() (UTF-8 bytes):
      - text without words gives the single empty line;
      - otherwise the lines hold exactly the words of the text, in order, each
        line its words separated by single spaces;
      - a line longer than the width holds a single word;
      - the lines are greedy: the first word of a line would not have fitted
        on the line before it. */
  ghost predicate IsWrapOf(lines: seq<string>, text: string, width: int)
  {
    var words, w := Fields(text), WrapWidth(width);
    && (words == [] ==> lines == [""])
    && (words != [] ==> WordsOfLines(lines) == words)
    && LinesFit(lines, w)
    && LinesGreedy(lines, w)
  }

  lemma WordsOfLinesSnoc(lines: seq<string>, line: string)
    ensures WordsOfLines(lines + [line]) == WordsOfLines(lines) + LineWords(line)
  {
    assert (lines + [line])[..|lines|] == lines;
  }

  lemma ExtendLines(lines: seq<string>, line: string, w: int)
    requires LinesFit(lines, w) && LinesGreedy(lines, w)
    requires Utf8Length(line) <= w || |LineWords(line)| == 1
    requires lines != [] ==> Utf8Length(lines[|lines| - 1]) + 1 + Utf8Length(LineWords(line)[0]) > w
    ensures LinesFit(lines + [line], w) && LinesGreedy(lines + [line], w)
  {
    var ls := lines + [line];
    forall k | 0 <= k < |ls| - 1
      ensures Utf8Length(ls[k]) + 1 + Utf8Length(LineWords(ls[k + 1])[0]) > w
    {
      if k < |lines| - 1 {
        assert ls[k] == lines[k] && ls[k + 1] == lines[k + 1];
      }
    }
  }

  lemma JoinSnoc(parts: seq<string>, sep: string, last: string)
    requires parts != []
    ensures Join(parts + [last], sep) == Join(parts, sep) + sep + last
  {
    if |parts| > 1 {
      assert (parts + [last])[1..] == parts[1..] + [last];
      JoinSnoc(parts[1..], sep, last);
    }
  }

  /** The words of a line built by joining words with single spaces. */
  lemma LineWordsOfJoin(words: seq<string>)
    requires words != []
    requires forall k :: 0 <= k < |words| ==> IsWord(words[k])
    ensures LineWords(Join(words, " ")) == words
    ensures Join(words, " ") != ""
  {
    SplitJoin(words, ' ');
  }

  /** Adding a word to a line of at most `w` bytes, with a space. */
  lemma AppendWord(line: string, word: string)
    ensures Utf8Length(line + " " + word) == Utf8Length(line) + 1 + Utf8Length(word)
  {
    Utf8LengthConcat(line, " ");
    Utf8LengthConcat(line + " ", word);
  }

  /** The state of wrapText after the first `i` words: the finished lines, and
      the line being filled holding the words `lineWords`. */
  ghost predicate WrapState(words: seq<string>, i: nat, w: int, lines: seq<string>,
                            currentLine: string, lineWords: seq<string>)
  {
    && i <= |words|
    && (forall k :: 0 <= k < |words| ==> IsWord(words[k]))
    && currentLine == Join(lineWords, " ")
    && (i == 0 <==> lineWords == [])
    && (forall k :: 0 <= k < |lineWords| ==> IsWord(lineWords[k]))
    && WordsOfLines(lines) + lineWords == words[..i]
    && LinesFit(lines, w) && LinesGreedy(lines, w)
    && (Utf8Length(currentLine) <= w || |lineWords| == 1)
    && (lines != [] ==> lineWords != [] && Utf8Length(lines[|lines| - 1]) + 1 + Utf8Length(lineWords[0]) > w)
  }

  /** The current line is empty exactly before the first word. */
  lemma CurrentLineEmpty(words: seq<string>, i: nat, w: int, lines: seq<string>,
                         currentLine: string, lineWords: seq<string>)
    requires WrapState(words, i, w, lines, currentLine, lineWords)
    ensures currentLine == "" <==> i == 0
  {
    if i != 0 {
      LineWordsOfJoin(lineWords);
    }
  }

  /** Step: the first word starts the first line. */
  lemma StepFirst(words: seq<string>, w: int, lines: seq<string>,
                  currentLine: string, lineWords: seq<string>)
    requires |words| > 0
    requires WrapState(words, 0, w, lines, currentLine, lineWords)
    ensures lines == []
    ensures WrapState(words, 1, w, lines, words[0], [words[0]])
  {
    assert words[..1] == [words[0]];
  }

  /** Before the first word nothing is wrapped. */
  lemma StartState(words: seq<string>, w: int)
    requires w >= 0
    requires forall k :: 0 <= k < |words| ==> IsWord(words[k])
    ensures WrapState(words, 0, w, [], "", [])
  {
    assert words[..0] == [];
  }

  /** Step: the word fits after a space on the current line. */
  lemma StepAppend(words: seq<string>, i: nat, w: int, lines: seq<string>,
                   currentLine: string, lineWords: seq<string>)
    requires WrapState(words, i, w, lines, currentLine, lineWords)
    requires 0 < i < |words|
    requires Utf8Length(currentLine) + 1 + Utf8Length(words[i]) <= w
    ensures WrapState(words, i + 1, w, lines, currentLine + " " + words[i], lineWords + [words[i]])
  {
    JoinSnoc(lineWords, " ", words[i]);
    AppendWord(currentLine, words[i]);
    var lw := lineWords + [words[i]];
    assert lw[0] == lineWords[0];
    assert forall k :: 0 <= k < |lineWords| ==> lw[k] == lineWords[k];
    assert WordsOfLines(lines) + lw == words[..i + 1] by {
      assert words[..i + 1] == words[..i] + [words[i]];
      assert WordsOfLines(lines) + lw == (WordsOfLines(lines) + lineWords) + [words[i]];
    }
  }

  /** Step: the word does not fit; the current line is finished. */
  lemma StepBreak(words: seq<string>, i: nat, w: int, lines: seq<string>,
                  currentLine: string, lineWords: seq<string>)
    requires WrapState(words, i, w, lines, currentLine, lineWords)
    requires 0 < i < |words|
    requires Utf8Length(currentLine) + 1 + Utf8Length(words[i]) > w
    ensures WrapState(words, i + 1, w, lines + [currentLine], words[i], [words[i]])
  {
    LineWordsOfJoin(lineWords);
    WordsOfLinesSnoc(lines, currentLine);
    assert WordsOfLines(lines + [currentLine]) + [words[i]] == words[..i + 1] by {
      assert words[..i + 1] == words[..i] + [words[i]];
    }
    ExtendLines(lines, currentLine, w);
    assert Join([words[i]], " ") == words[i];
  }

  /** After the last word the current line is finished too. */
  lemma Finish(words: seq<string>, w: int, lines: seq<string>,
               currentLine: string, lineWords: seq<string>)
    requires |words| > 0
    requires WrapState(words, |words|, w, lines, currentLine, lineWords)
    ensures currentLine != ""
    ensures WordsOfLines(lines + [currentLine]) == words
    ensures LinesFit(lines + [currentLine], w) && LinesGreedy(lines + [currentLine], w)
  {
    LineWordsOfJoin(lineWords);
    WordsOfLinesSnoc(lines, currentLine);
    ExtendLines(lines, currentLine, w);
    assert words[..|words|] == words;
  }

  /** Text without words wraps to the single empty line. */
  lemma NoWords(text: string, width: int)
    requires Fields(text) == []
    ensures IsWrapOf([""], text, width)
  {
    assert LineWords("") == [""];
  }

  /** One iteration of wrapText's loop: place the next word `words[i]`
      either on the current line or at the start of a new one. */
  method PlaceWord(word: string, w: int, lines: seq<string>, currentLine: string,
                   ghost words: seq<string>, ghost i: nat, ghost lineWords: seq<string>)
    returns (lines': seq<string>, currentLine': string, ghost lineWords': seq<string>)
    requires WrapState(words, i, w, lines, currentLine, lineWords)
    requires i < |words| && word == words[i]
    ensures WrapState(words, i + 1, w, lines', currentLine', lineWords')
  {
    CurrentLineEmpty(words, i, w, lines, currentLine, lineWords);
    if |currentLine| == 0 {
      StepFirst(words, w, lines, currentLine, lineWords);
      lines', currentLine', lineWords' := lines, word, [word];
    } else if Utf8Length(currentLine) + 1 + Utf8Length(word) <= w {
      StepAppend(words, i, w, lines, currentLine, lineWords);
      lines', currentLine', lineWords' := lines, currentLine + " " + word, lineWords + [word];
    } else {
      StepBreak(words, i, w, lines, currentLine, lineWords);
      lines', currentLine', lineWords' := lines + [currentLine], word, [word];
    }
  }

  /** wrapText: greedy word wrapping of `text` to `width`. */
  method WrapText(text: string, width: int) returns (lines: seq<string>)
    ensures IsWrapOf(lines, text, width)
  {
    var w := width;
    if w < MinWrapWidth {
      w := FallbackWrapWidth;
    }
    var words := Fields(text);
    if |words| == 0 {
      NoWords(text, width);
      return [""];
    }
    lines := WrapWords(words, w);
  }

  /** The loop of wrapText over the (non-empty) list of words, and the final
      line it adds after the loop. */
  method WrapWords(words: seq<string>, w: int) returns (lines: seq<string>)
    requires |words| > 0 && forall k :: 0 <= k < |words| ==> IsWord(words[k])
    requires w >= 0
    ensures WordsOfLines(lines) == words
    ensures LinesFit(lines, w) && LinesGreedy(lines, w)
  {
    lines := [];
    var currentLine := "";
    ghost var lineWords: seq<string> := [];
    StartState(words, w);
    for i := 0 to |words|
      invariant WrapState(words, i, w, lines, currentLine, lineWords)
    {
      lines, currentLine, lineWords := PlaceWord(words[i], w, lines, currentLine, words, i, lineWords);
    }
    Finish(words, w, lines, currentLine, lineWords);
    if currentLine != "" {
      lines := lines + [currentLine];
    } else {
      assert false;
    }
  }

  /** A wrapped line longer than the width has no space in it: it is one word. */
  lemma LongLineIsOneWord(lines: seq<string>, text: string, width: int, k: nat)
    requires IsWrapOf(lines, text, width)
    requires k < |lines| && Utf8Length(lines[k]) > WrapWidth(width)
    ensures ' ' !in lines[k]
  {
    if ' ' in lines[k] {
      var j :| 0 <= j < |lines[k]| && lines[k][j] == ' ';
      assert lines[k] == lines[k][..j] + [' '] + lines[k][j + 1..];
      SplitAfterPiece2(lines[k][..j], lines[k][j + 1..]);
    }
  }

  lemma SplitAfterPiece2(a: string, b: string)
    ensures |Split(a + [' '] + b, ' ')| >= 2
  {
    if a == [] {
      assert a + [' '] + b == [' '] + b;
      assert ([' '] + b)[1..] == b;
    } else {
      assert (a + [' '] + b)[1..] == a[1..] + [' '] + b;
      SplitAfterPiece2(a[1..], b);
    }
  }

  // =====================================================================
  // stripAnsi
  // =====================================================================

  const Esc: char := '\U{1B}'

  /** The characters stripAnsi keeps of `s` when it starts scanning in the
      given state: outside an escape it keeps every character but ESC, which
      enters the escape state; inside it drops everything up to and including
      the next 'm'. */
  function KeptFrom(s: string, inEscape: bool): string
  {
    if s == [] then ""
    else if inEscape then KeptFrom(s[1..], s[0] != 'm')
    else if s[0] == Esc then KeptFrom(s[1..], true)
    else [s[0]] + KeptFrom(s[1..], false)
  }

  /** Whether stripAnsi is inside an escape after scanning `s`. */
  function InEscapeAfter(s: string, inEscape: bool): bool
  {
    if s == [] then inEscape
    else if inEscape then InEscapeAfter(s[1..], s[0] != 'm')
    else InEscapeAfter(s[1..], s[0] == Esc)
  }

  /** The text of `s` with its escape sequences removed. */
  function VisibleText(s: string): string
  {
    KeptFrom(s, false)
  }

  /** stripAnsi. */
  method StripAnsi(s: string) returns (r: string)
    ensures r == VisibleText(s)
  {
    r := "";
    var inEscape := false;
    for i := 0 to |s|
      invariant r + KeptFrom(s[i..], inEscape) == VisibleText(s)
    {
      assert s[i..][1..] == s[i + 1..];
      var c := s[i];
      if inEscape {
        if c == 'm' {
          inEscape := false;
        }
      } else if c == Esc {
        inEscape := true;
      } else {
        r := r + [c];
      }
    }
  }

  /** Scanning a concatenation: the second part is scanned in the state the
      first part leaves. */
  lemma {:induction false} KeptFromConcat(a: string, b: string, inEscape: bool)
    ensures KeptFrom(a + b, inEscape) == KeptFrom(a, inEscape) + KeptFrom(b, InEscapeAfter(a, inEscape))
  {
    if a == [] {
      assert a + b == b;
    } else {
      assert (a + b)[0] == a[0] && (a + b)[1..] == a[1..] + b;
      if inEscape {
        KeptFromConcat(a[1..], b, a[0] != 'm');
      } else {
        KeptFromConcat(a[1..], b, a[0] == Esc);
      }
    }
  }

  /** The result never contains ESC. */
  lemma {:induction false} NoEscapeKept(s: string, inEscape: bool)
    ensures Esc !in KeptFrom(s, inEscape)
  {
    if s != [] {
      if inEscape {
        NoEscapeKept(s[1..], s[0] != 'm');
      } else {
        NoEscapeKept(s[1..], s[0] == Esc);
      }
    }
  }

  /** Text without ESC is kept whole. */
  lemma {:induction false} PlainTextKept(s: string)
    requires Esc !in s
    ensures VisibleText(s) == s
    ensures !InEscapeAfter(s, false)
  {
    if s != [] {
      PlainTextKept(s[1..]);
      assert s == [s[0]] + s[1..];
    }
  }

  /** stripAnsi is idempotent. */
  lemma StripAnsiIdempotent(s: string)
    ensures VisibleText(VisibleText(s)) == VisibleText(s)
  {
    NoEscapeKept(s, false);
    PlainTextKept(VisibleText(s));
  }

  /** One run `ESC params m` (params free of 'm') is dropped whole. */
  lemma {:induction false} EscapeRunDropped(params: string)
    requires 'm' !in params
    ensures VisibleText(EscapeSequence(params)) == ""
    ensures !InEscapeAfter(EscapeSequence(params), false)
  {
    var s := [Esc] + params + "m";
    assert s[1..] == params + "m";
    InsideRunDropped(params);
  }

  lemma {:induction false} InsideRunDropped(params: string)
    requires 'm' !in params
    ensures KeptFrom(params + "m", true) == ""
    ensures !InEscapeAfter(params + "m", true)
  {
    if params != [] {
      assert (params + "m")[1..] == params[1..] + "m";
      InsideRunDropped(params[1..]);
    }
  }

  /** `ESC params m`: one escape sequence. */
  function EscapeSequence(params: string): string
  {
    [Esc] + params + "m"
  }

  /** A piece of terminal text: plain text, or one escape sequence
      `ESC params m`. */
  datatype Segment = Plain(text: string) | EscapeRun(params: string)

  predicate WellFormedSegment(g: Segment)
  {
    match g
    case Plain(t) => Esc !in t
    case EscapeRun(p) => 'm' !in p
  }

  function SegmentText(g: Segment): string
  {
    match g
    case Plain(t) => t
    case EscapeRun(p) => EscapeSequence(p)
  }

  /** The terminal text made of the segments, in order. */
  function Render(gs: seq<Segment>): string
  {
    if gs == [] then "" else SegmentText(gs[0]) + Render(gs[1..])
  }

  /** The plain text of the segments, in order. */
  function PlainOf(gs: seq<Segment>): string
  {
    if gs == [] then ""
    else (if gs[0].Plain? then gs[0].text else "") + PlainOf(gs[1..])
  }

  /** stripAnsi keeps exactly the characters outside the `ESC ... m` runs, in
      order, and leaves the scanner outside an escape. */
  lemma {:induction false} VisibleTextOfSegments(gs: seq<Segment>)
    requires forall k :: 0 <= k < |gs| ==> WellFormedSegment(gs[k])
    ensures VisibleText(Render(gs)) == PlainOf(gs)
    ensures !InEscapeAfter(Render(gs), false)
  {
    if gs != [] {
      VisibleTextOfSegments(gs[1..]);
      KeptFromConcat(SegmentText(gs[0]), Render(gs[1..]), false);
      InEscapeAfterConcat(SegmentText(gs[0]), Render(gs[1..]), false);
      match gs[0]
      case Plain(t) => PlainTextKept(t);
      case EscapeRun(p) => EscapeRunDropped(p);
    }
  }

  lemma {:induction false} InEscapeAfterConcat(a: string, b: string, inEscape: bool)
    ensures InEscapeAfter(a + b, inEscape) == InEscapeAfter(b, InEscapeAfter(a, inEscape))
  {
    if a == [] {
      assert a + b == b;
    } else {
      assert (a + b)[0] == a[0] && (a + b)[1..] == a[1..] + b;
      if inEscape {
        InEscapeAfterConcat(a[1..], b, a[0] != 'm');
      } else {
        InEscapeAfterConcat(a[1..], b, a[0] == Esc);
      }
    }
  }

  // =====================================================================
  // Colours: getColorAt and ansiColorString
  // =====================================================================

  type Byte = x: int | 0 <= x < 256

  /** color.RGBA: 8-bit red, green, blue and alpha. */
  datatype Rgba = Rgba(r: Byte, g: Byte, b: Byte, a: Byte)

  /** The colour getColorAt gives outside the image: color.RGBA{0, 0, 0, 255}. */
  const OpaqueBlack := Rgba(0, 0, 0, 255)

  /** A channel as ansiColorString prints it: color.RGBA's RGBA() method
      widens the byte to 16 bits (the byte repeated, v * 0x101), and the
      shift right by 8 narrows it back to the byte. */
  function Channel(v: Byte): (r: nat)
    ensures r == v
  {
    assert v * 0x101 == v * 0x100 + v;
    (v * 0x101) / 0x100
  }

  /** A character of an SGR parameter list as ansiColorString writes it. */
  predicate IsParamChar(c: char)
  {
    IsDigit(c) || c == '[' || c == ';'
  }

  /** `[<code>;2;<r>;<g>;<b>`: the body of one 24-bit colour sequence, between
      its ESC and its final 'm'. */
  function ColorParams(code: string, c: Rgba): (p: string)
    requires forall i :: 0 <= i < |code| ==> IsDigit(code[i])
    ensures forall i :: 0 <= i < |p| ==> IsParamChar(p[i])
  {
    var r, g, b := Decimal(Channel(c.r)), Decimal(Channel(c.g)), Decimal(Channel(c.b));
    AllParamChars(g, ";");
    AllParamChars(g + ";", b);
    AllParamChars(r, ";");
    AllParamChars(r + ";", g + ";" + b);
    AllParamChars("2;", r + ";" + (g + ";" + b));
    AllParamChars("[" + code, ";");
    AllParamChars("[" + code + ";", "2;" + (r + ";" + (g + ";" + b)));
    "[" + code + ";" + ("2;" + (r + ";" + (g + ";" + b)))
  }

  lemma AllParamChars(a: string, b: string)
    requires forall i :: 0 <= i < |a| ==> IsParamChar(a[i])
    requires forall i :: 0 <= i < |b| ==> IsParamChar(b[i])
    ensures forall i :: 0 <= i < |a + b| ==> IsParamChar((a + b)[i])
  {
  }

  /** ansiColorString: `ch` drawn in `fg` on `bg` with 24-bit colour
      sequences and a reset, or `ch` alone without colours. */
  function AnsiColorString(ch: char, fg: Rgba, bg: Rgba, use256: bool): (r: string)
    ensures !use256 ==> r == [ch]
    ensures use256 ==> HasPrefix(r, [Esc] + "[38;2;") && HasSuffix(r, [ch] + EscapeSequence("[0"))
  {
    if use256 then
      EscapeSequence(ColorParams("38", fg)) + EscapeSequence(ColorParams("48", bg)) + [ch] + EscapeSequence("[0")
    else
      [ch]
  }

  /** The segments of a coloured cell. */
  function CellSegments(ch: char, fg: Rgba, bg: Rgba): seq<Segment>
  {
    [EscapeRun(ColorParams("38", fg)), EscapeRun(ColorParams("48", bg)), Plain([ch]), EscapeRun("[0")]
  }

  /** A coloured cell is its three escape sequences around the character. */
  lemma CellIsSegments(ch: char, fg: Rgba, bg: Rgba)
    ensures AnsiColorString(ch, fg, bg, true) == Render(CellSegments(ch, fg, bg))
  {
    var gs := CellSegments(ch, fg, bg);
    var e1, e2, e3 := EscapeSequence(ColorParams("38", fg)), EscapeSequence(ColorParams("48", bg)), EscapeSequence("[0");
    assert gs[3..][1..] == [];
    assert Render(gs[3..]) == e3 + "";
    assert gs[2..][1..] == gs[3..];
    assert Render(gs[2..]) == [ch] + (e3 + "");
    assert gs[1..][1..] == gs[2..];
    assert Render(gs[1..]) == e2 + ([ch] + (e3 + ""));
    assert Render(gs) == e1 + (e2 + ([ch] + (e3 + "")));
    assert e3 + "" == e3;
  }

  /** Whatever the colours, stripAnsi of a cell is the cell's character, and
      the cell leaves no escape open. */
  lemma CellVisible(ch: char, fg: Rgba, bg: Rgba, use256: bool)
    requires ch != Esc
    ensures VisibleText(AnsiColorString(ch, fg, bg, use256)) == [ch]
    ensures !InEscapeAfter(AnsiColorString(ch, fg, bg, use256), false)
  {
    if use256 {
      var gs := CellSegments(ch, fg, bg);
      CellIsSegments(ch, fg, bg);
      forall k | 0 <= k < |gs|
        ensures WellFormedSegment(gs[k])
      {
        if k < 2 {
          assert 'm' !in gs[k].params by {
            assert !IsParamChar('m');
          }
        }
      }
      VisibleTextOfSegments(gs);
      assert gs[3..][1..] == [] && gs[2..][1..] == gs[3..] && gs[1..][1..] == gs[2..];
      assert PlainOf(gs[3..]) == "";
      assert PlainOf(gs[2..]) == [ch] + "";
      assert PlainOf(gs) == "" + ("" + ([ch] + ""));
    } else {
      PlainTextKept([ch]);
    }
  }

  /** The fields of a 24-bit colour sequence between ';' are the code, "2"
      and the three channels in decimal. */
  lemma ColorParamsFields(code: string, c: Rgba)
    requires forall i :: 0 <= i < |code| ==> IsDigit(code[i])
    ensures Split(ColorParams(code, c), ';')
         == ["[" + code, "2", Decimal(c.r), Decimal(c.g), Decimal(c.b)]
  {
    var r, g, b := Decimal(c.r), Decimal(c.g), Decimal(c.b);
    assert Channel(c.r) == c.r && Channel(c.g) == c.g && Channel(c.b) == c.b;
    var head, t1 := "[" + code, "2;" + (r + ";" + (g + ";" + b));
    NoSemicolonInHead(code);
    ChannelFields(r, g, b);
    assert ColorParams(code, c) == head + [';'] + t1;
    SplitAfterPiece(head, ';', t1);
  }

  /** The fields of `2;<r>;<g>;<b>` between ';'. */
  lemma ChannelFields(r: string, g: string, b: string)
    requires forall i :: 0 <= i < |r| ==> IsDigit(r[i])
    requires forall i :: 0 <= i < |g| ==> IsDigit(g[i])
    requires forall i :: 0 <= i < |b| ==> IsDigit(b[i])
    ensures Split("2;" + (r + ";" + (g + ";" + b)), ';') == ["2", r, g, b]
  {
    assert ';' !in r && ';' !in g && ';' !in b;
    var t3 := g + ";" + b;
    SplitTwo(g, ';', b);
    var t2 := r + ";" + t3;
    SplitAfterPiece(r, ';', t3);
    var t1 := "2;" + t2;
    assert t1 == "2" + [';'] + t2;
    SplitAfterPiece("2", ';', t2);
  }

  lemma NoSemicolonInHead(code: string)
    requires forall i :: 0 <= i < |code| ==> IsDigit(code[i])
    ensures ';' !in "[" + code
  {
    assert forall i :: 0 <= i < |code| ==> ("[" + code)[i + 1] == code[i];
  }

  /** Reading the printed sequence back gives the colour: the third, fourth
      and fifth fields are the decimal red, green and blue channels. */
  lemma ColorReadBack(code: string, c: Rgba)
    requires forall i :: 0 <= i < |code| ==> IsDigit(code[i])
    ensures var f := Split(ColorParams(code, c), ';');
            |f| == 5 && f[1] == "2" && AllDigits(f[2]) && AllDigits(f[3]) && AllDigits(f[4])
            && DigitsValue(f[2]) == c.r && DigitsValue(f[3]) == c.g && DigitsValue(f[4]) == c.b
  {
    ColorParamsFields(code, c);
    DecimalValue(c.r);
    DecimalValue(c.g);
    DecimalValue(c.b);
  }

  /** image.Image as imageToAnsi sees it: its bounds rectangle
      [minX, maxX) x [minY, maxY) and its pixels (img.At). */
  datatype Image = Image(minX: int, minY: int, maxX: int, maxY: int, at: (int, int) -> Rgba)

  predicate InBounds(img: Image, x: int, y: int)
  {
    img.minX <= x < img.maxX && img.minY <= y < img.maxY
  }

  /** getColorAt: the pixel at (x, y), or opaque black outside the bounds. */
  function GetColorAt(img: Image, x: int, y: int): (c: Rgba)
    ensures InBounds(img, x, y) ==> c == img.at(x, y)
    ensures !InBounds(img, x, y) ==> c == OpaqueBlack
  {
    if img.minX <= x && x < img.maxX && img.minY <= y && y < img.maxY then img.at(x, y) else OpaqueBlack
  }

  // =====================================================================
  // imageToAnsi: the half-block grid
  // =====================================================================

  /** '▀': the upper half of the cell shows the foreground, the lower half
      the background. */
  const UpperHalfBlock: char := '\U{2580}'

  /** colorful.MakeColor, averageColor and colorfulToColor combined: the
      colour of a half cell from its two pixels. Their float arithmetic is
      not part of this model, so the blend is a parameter. */
  type Blend = (Rgba, Rgba) -> Rgba

  /** The cell for the 2x2 pixel block whose top-left pixel is (x, y): the
      top two pixels give the foreground, the bottom two the background. */
  function Cell(img: Image, blend: Blend, use256: bool, x: int, y: int): string
  {
    var fg := blend(GetColorAt(img, x, y), GetColorAt(img, x + 1, y));
    var bg := blend(GetColorAt(img, x, y + 1), GetColorAt(img, x + 1, y + 1));
    AnsiColorString(UpperHalfBlock, fg, bg, use256)
  }

  /** A cell holds no newline, strips to the half block and leaves no escape
      open. */
  lemma CellFacts(img: Image, blend: Blend, use256: bool, x: int, y: int)
    ensures '\n' !in Cell(img, blend, use256, x, y)
    ensures VisibleText(Cell(img, blend, use256, x, y)) == [UpperHalfBlock]
    ensures !InEscapeAfter(Cell(img, blend, use256, x, y), false)
  {
    var fg := blend(GetColorAt(img, x, y), GetColorAt(img, x + 1, y));
    var bg := blend(GetColorAt(img, x, y + 1), GetColorAt(img, x + 1, y + 1));
    CellVisible(UpperHalfBlock, fg, bg, use256);
    if use256 {
      CellIsSegments(UpperHalfBlock, fg, bg);
      NoNewlineInCell(fg, bg);
    }
  }

  /** A coloured half-block cell holds no newline. */
  lemma NoNewlineInCell(fg: Rgba, bg: Rgba)
    ensures '\n' !in AnsiColorString(UpperHalfBlock, fg, bg, true)
  {
    var p1, p2 := ColorParams("38", fg), ColorParams("48", bg);
    assert !IsParamChar('\n');
    assert '\n' !in p1 && '\n' !in p2;
  }

  /** The first `n` cells of the text row made from pixel rows y and y + 1. */
  function CellRow(img: Image, blend: Blend, use256: bool, y: int, n: nat): string
  {
    if n == 0 then "" else CellRow(img, blend, use256, y, n - 1) + Cell(img, blend, use256, 2 * (n - 1), y)
  }

  /** The first `m` text rows, `n` cells each, each ended by a newline. */
  function ArtText(img: Image, blend: Blend, use256: bool, m: nat, n: nat): string
  {
    if m == 0 then "" else ArtText(img, blend, use256, m - 1, n) + CellRow(img, blend, use256, 2 * (m - 1), n) + "\n"
  }

  /** The number of iterations of `for v := 0; v < 2 * n; v += 2`. */
  function Count(n: int): (r: nat)
    ensures r == 0 <==> n <= 0
    ensures n > 0 ==> r == n
  {
    if n <= 0 then 0 else n
  }

  /** A loop `for v := 0; v < 2 * n; v += 2` visits the even numbers below
      `2 * n`, and there are `Count(n)` of them. */
  lemma {:induction false} EvenStepsCount(n: int)
    ensures |set v | 0 <= v < 2 * n && v % 2 == 0| == Count(n)
  {
    if n <= 0 {
      assert (set v | 0 <= v < 2 * n && v % 2 == 0) == {};
    } else {
      EvenStepsCount(n - 1);
      var before := set v | 0 <= v < 2 * (n - 1) && v % 2 == 0;
      assert (set v | 0 <= v < 2 * n && v % 2 == 0) == before + {2 * (n - 1)};
      assert 2 * (n - 1) !in before;
    }
  }

  /** imageToAnsi after the resize: one cell per 2x2 block, row by row. */
  method ImageToAnsi(resized: Image, width: int, height: int, use256: bool, blend: Blend)
    returns (art: string)
    ensures art == ArtText(resized, blend, use256, Count(height), Count(width))
  {
    art := "";
    var y := 0;
    ghost var rows: nat := 0;
    while y < height * 2
      invariant y == 2 * rows && rows <= Count(height)
      invariant art == ArtText(resized, blend, use256, rows, Count(width))
      decreases Count(height) - rows
    {
      ArtTextSnoc(resized, blend, use256, rows, Count(width), y);
      art := WriteRow(art, resized, width, use256, blend, y);
      art := art + "\n";
      y, rows := y + 2, rows + 1;
    }
  }

  lemma ArtTextSnoc(img: Image, blend: Blend, use256: bool, m: nat, n: nat, y: int)
    requires y == 2 * m
    ensures ArtText(img, blend, use256, m + 1, n)
         == ArtText(img, blend, use256, m, n) + CellRow(img, blend, use256, y, n) + "\n"
  {
  }

  /** The inner loop of imageToAnsi: the cells of pixel rows y and y + 1
      appended to the buffer. */
  method WriteRow(buffer: string, resized: Image, width: int, use256: bool, blend: Blend, y: int)
    returns (buffer': string)
    ensures buffer' == buffer + CellRow(resized, blend, use256, y, Count(width))
  {
    buffer' := buffer;
    var x := 0;
    ghost var cells: nat := 0;
    while x < width * 2
      invariant x == 2 * cells && cells <= Count(width)
      invariant buffer' == buffer + CellRow(resized, blend, use256, y, cells)
      decreases Count(width) - cells
    {
      var cell := Cell(resized, blend, use256, x, y);
      AppendAssoc(buffer, CellRow(resized, blend, use256, y, cells), cell);
      buffer' := buffer' + cell;
      x, cells := x + 2, cells + 1;
    }
  }

  lemma AppendAssoc(a: string, b: string, c: string)
    ensures (a + b) + c == a + (b + c)
  {
  }

  /** The rows of the art as a list. */
  function ArtRows(img: Image, blend: Blend, use256: bool, m: nat, n: nat): (rows: seq<string>)
    ensures |rows| == m
  {
    if m == 0 then [] else ArtRows(img, blend, use256, m - 1, n) + [CellRow(img, blend, use256, 2 * (m - 1), n)]
  }

  /** No newline inside a row. */
  lemma {:induction false} CellRowHasNoNewline(img: Image, blend: Blend, use256: bool, y: int, n: nat)
    ensures '\n' !in CellRow(img, blend, use256, y, n)
  {
    if n > 0 {
      CellRowHasNoNewline(img, blend, use256, y, n - 1);
      CellFacts(img, blend, use256, 2 * (n - 1), y);
    }
  }

  /** The art text is its rows joined by newlines, with a final newline. */
  lemma {:induction false} ArtTextJoin(img: Image, blend: Blend, use256: bool, m: nat, n: nat)
    ensures ArtText(img, blend, use256, m, n) == Join(ArtRows(img, blend, use256, m, n) + [""], "\n")
  {
    if m == 0 {
      assert ArtRows(img, blend, use256, m, n) + [""] == [""];
    } else {
      ArtTextJoin(img, blend, use256, m - 1, n);
      var rows := ArtRows(img, blend, use256, m - 1, n);
      var row := CellRow(img, blend, use256, 2 * (m - 1), n);
      assert ArtRows(img, blend, use256, m, n) == rows + [row];
      assert ArtText(img, blend, use256, m, n) == ArtText(img, blend, use256, m - 1, n) + row + "\n";
      TerminatedSnoc(rows, row);
    }
  }

  /** Lines each ended by a newline: one more line adds it and a newline. */
  lemma TerminatedSnoc(rows: seq<string>, row: string)
    ensures Join(rows + [row] + [""], "\n") == Join(rows + [""], "\n") + row + "\n"
  {
    JoinSnoc(rows + [row], "\n", "");
    if rows == [] {
      assert rows + [row] == [row];
      assert rows + [""] == [""];
    } else {
      var j := Join(rows, "\n");
      JoinSnoc(rows, "\n", row);
      JoinSnoc(rows, "\n", "");
      assert Join(rows + [""], "\n") == j + "\n";
      assert Join(rows + [row] + [""], "\n") == j + "\n" + row + "\n";
    }
  }

  /** imageToAnsi's output splits at newlines into exactly `height` rows,
      row i being the cells read from pixel rows 2i and 2i + 1, and the empty
      text after the last newline. */
  lemma ArtLines(img: Image, blend: Blend, use256: bool, m: nat, n: nat)
    ensures Split(ArtText(img, blend, use256, m, n), '\n') == ArtRows(img, blend, use256, m, n) + [""]
    ensures forall i :: 0 <= i < m ==> ArtRows(img, blend, use256, m, n)[i] == CellRow(img, blend, use256, 2 * i, n)
  {
    var rows := ArtRows(img, blend, use256, m, n);
    ArtTextJoin(img, blend, use256, m, n);
    RowsAreCellRows(img, blend, use256, m, n);
    forall k | 0 <= k < |rows + [""]|
      ensures '\n' !in (rows + [""])[k]
    {
      if k < m {
        CellRowHasNoNewline(img, blend, use256, 2 * k, n);
      }
    }
    SplitJoin(rows + [""], '\n');
  }

  lemma {:induction false} RowsAreCellRows(img: Image, blend: Blend, use256: bool, m: nat, n: nat)
    ensures forall i :: 0 <= i < m ==> ArtRows(img, blend, use256, m, n)[i] == CellRow(img, blend, use256, 2 * i, n)
  {
    if m > 0 {
      RowsAreCellRows(img, blend, use256, m - 1, n);
    }
  }

  /** Stripped of its colours, a row of `n` cells is `n` half blocks. */
  lemma {:induction false} CellRowVisible(img: Image, blend: Blend, use256: bool, y: int, n: nat)
    ensures VisibleText(CellRow(img, blend, use256, y, n)) == Repeat(UpperHalfBlock, n)
    ensures !InEscapeAfter(CellRow(img, blend, use256, y, n), false)
  {
    if n > 0 {
      CellRowVisible(img, blend, use256, y, n - 1);
      var prev := CellRow(img, blend, use256, y, n - 1);
      CellFacts(img, blend, use256, 2 * (n - 1), y);
      KeptFromConcat(prev, Cell(img, blend, use256, 2 * (n - 1), y), false);
      InEscapeAfterConcat(prev, Cell(img, blend, use256, 2 * (n - 1), y), false);
    }
  }

  /** The art depends only on the pixels getColorAt reads inside the
      2n x 2m box at the origin. */
  lemma {:induction false} ArtIsLocal(img1: Image, img2: Image, blend: Blend, use256: bool, m: nat, n: nat)
    requires forall x, y :: 0 <= x < 2 * n && 0 <= y < 2 * m ==> GetColorAt(img1, x, y) == GetColorAt(img2, x, y)
    ensures ArtText(img1, blend, use256, m, n) == ArtText(img2, blend, use256, m, n)
  {
    if m > 0 {
      ArtIsLocal(img1, img2, blend, use256, m - 1, n);
      RowIsLocal(img1, img2, blend, use256, 2 * (m - 1), n);
    }
  }

  lemma {:induction false} RowIsLocal(img1: Image, img2: Image, blend: Blend, use256: bool, y: int, n: nat)
    requires forall x, v :: 0 <= x < 2 * n && y <= v <= y + 1 ==> GetColorAt(img1, x, v) == GetColorAt(img2, x, v)
    ensures CellRow(img1, blend, use256, y, n) == CellRow(img2, blend, use256, y, n)
  {
    if n > 0 {
      RowIsLocal(img1, img2, blend, use256, y, n - 1);
      assert GetColorAt(img1, 2 * (n - 1), y) == GetColorAt(img2, 2 * (n - 1), y);
      assert GetColorAt(img1, 2 * (n - 1) + 1, y) == GetColorAt(img2, 2 * (n - 1) + 1, y);
      assert GetColorAt(img1, 2 * (n - 1), y + 1) == GetColorAt(img2, 2 * (n - 1), y + 1);
      assert GetColorAt(img1, 2 * (n - 1) + 1, y + 1) == GetColorAt(img2, 2 * (n - 1) + 1, y + 1);
    }
  }

  // =====================================================================
  // displayCard: art on the left, card information on the right
  // =====================================================================

  /** The width displayCard measures a line of art by: Go's len() of
      stripAnsi(line), that is the UTF-8 bytes of its visible text. */
  function VisibleWidth(line: string): nat
  {
    Utf8Length(VisibleText(line))
  }

  /** maxAnsiWidth after the first |lines| iterations: the widest line, or 0. */
  function WidestLine(lines: seq<string>): nat
  {
    if lines == [] then 0
    else
      var m := WidestLine(lines[..|lines| - 1]);
      var w := VisibleWidth(lines[|lines| - 1]);
      if w > m then w else m
  }

  /** Every line fits any column at least as wide as the widest line. */
  lemma {:induction false} WidestLineFits(lines: seq<string>, col: int)
    requires col >= WidestLine(lines)
    ensures FitsColumn(lines, col)
  {
    if lines != [] {
      var prefix := lines[..|lines| - 1];
      WidestLineFits(prefix, col);
      forall k | 0 <= k < |lines|
        ensures VisibleWidth(lines[k]) <= col
      {
        if k < |prefix| {
          assert lines[k] == prefix[k];
        }
      }
    }
  }

  /** The widest line is one of the lines (or 0 when all are empty). */
  lemma {:induction false} WidestLineAttained(lines: seq<string>)
    ensures WidestLine(lines) == 0 || exists i :: 0 <= i < |lines| && VisibleWidth(lines[i]) == WidestLine(lines)
  {
    if lines != [] {
      var prefix := lines[..|lines| - 1];
      WidestLineAttained(prefix);
      if WidestLine(lines) != VisibleWidth(lines[|lines| - 1]) && WidestLine(lines) != 0 {
        var i :| 0 <= i < |prefix| && VisibleWidth(prefix[i]) == WidestLine(prefix);
        assert lines[i] == prefix[i];
      }
    }
  }

  /** The loop of displayCard computing maxAnsiWidth. */
  method MaxAnsiWidth(ansiLines: seq<string>) returns (maxAnsiWidth: nat)
    ensures maxAnsiWidth == WidestLine(ansiLines)
  {
    maxAnsiWidth := 0;
    for i := 0 to |ansiLines|
      invariant maxAnsiWidth == WidestLine(ansiLines[..i])
    {
      assert ansiLines[..i + 1][..i] == ansiLines[..i];
      var stripped := StripAnsi(ansiLines[i]);
      var visibleWidth := Utf8Length(stripped);
      if visibleWidth > maxAnsiWidth {
        maxAnsiWidth := visibleWidth;
      }
    }
    assert ansiLines[..|ansiLines|] == ansiLines;
  }

  /** The terminal width used when the probe fails or reports no width. */
  const DefaultTerminalWidth := 80

  /** The columns between the widest art line and the information. */
  const Spacing := 4

  /** The margin kept free at the right of the information. */
  const RightMargin := 2

  /** The narrowest the information column is wrapped to. */
  const MinInfoWidth := 20

  /** The terminal width displayCard lays out for, given what term.GetSize
      reported (None for an error). */
  function TerminalWidth(probe: Option<int>): (w: int)
    ensures w > 0
    ensures probe.Some? && probe.value > 0 ==> w == probe.value
    ensures probe.None? || probe.value <= 0 ==> w == DefaultTerminalWidth
  {
    if probe.None? || probe.value <= 0 then DefaultTerminalWidth else probe.value
  }

  /** infoWidth: what is left of the terminal right of the art, the spacing
      and the margin, but at least MinInfoWidth. */
  function InfoWidth(termWidth: int, maxAnsiWidth: int): (w: int)
    ensures w >= MinInfoWidth
    ensures w == MinInfoWidth || w == termWidth - (maxAnsiWidth + Spacing) - RightMargin
    ensures termWidth - (maxAnsiWidth + Spacing) - RightMargin >= MinInfoWidth
            ==> w == termWidth - (maxAnsiWidth + Spacing) - RightMargin
  {
    var infoStartCol := maxAnsiWidth + Spacing;
    var infoWidth := termWidth - infoStartCol - RightMargin;
    if infoWidth < MinInfoWidth then MinInfoWidth else infoWidth
  }

  /** The colorize wrappers and symbol tables displayCard uses, as opaque
      string functions: cyan and hiWhite add the terminal colours around
      their text, arcanaSymbol and suitSymbol are getArcanaSymbol and
      getSuitSymbol. */
  datatype Styling = Styling(
    cyan: string -> string,
    hiWhite: string -> string,
    arcanaSymbol: bool -> string,
    suitSymbol: string -> string)

  /** The labelled lines about the card: name, deck and ID, then the type,
      and for any card whose type is not "major_arcana" also suit and rank. */
  function InfoHeader(c: Card, deckName: string, st: Styling): (lines: seq<string>)
    ensures |lines| == if c.cardType == "major_arcana" then 4 else 6
    ensures lines[..3] == [st.cyan("Card: ") + st.hiWhite(c.name),
                           st.cyan("Deck: ") + st.hiWhite(deckName),
                           st.cyan("ID:   ") + st.hiWhite(c.id)]
  {
    var isMinor := c.cardType == "minor_arcana";
    var arcanaSymbol := st.arcanaSymbol(isMinor);
    var suitSymbol := if isMinor then st.suitSymbol(c.suit) else "";
    var common := [st.cyan("Card: ") + st.hiWhite(c.name),
                   st.cyan("Deck: ") + st.hiWhite(deckName),
                   st.cyan("ID:   ") + st.hiWhite(c.id)];
    if c.cardType == "major_arcana" then
      common + [st.cyan("Type: ") + st.hiWhite("Major Arcana \U{00B7} " + arcanaSymbol)]
    else
      common + [st.cyan("Type: ") + st.hiWhite("Minor Arcana \U{00B7} " + arcanaSymbol),
                st.cyan("Suit: ") + st.hiWhite(c.suit + " \U{00B7} " + suitSymbol),
                st.cyan("Rank: ") + st.hiWhite(c.rank)]
  }

  /** All information lines: the header, then, when the card has alt text, a
      blank line, the "Description:" label and the wrapped description. */
  function InfoLines(c: Card, deckName: string, st: Styling, description: seq<string>): (lines: seq<string>)
    ensures |lines| == |InfoHeader(c, deckName, st)| + if c.altText != "" then 2 + |description| else 0
  {
    InfoHeader(c, deckName, st)
      + if c.altText != "" then ["", st.cyan("Description:")] + description else []
  }

  /** Whether every art line fits in `col` columns as displayCard measures it. */
  predicate FitsColumn(art: seq<string>, col: int)
  {
    forall k :: 0 <= k < |art| ==> VisibleWidth(art[k]) <= col
  }

  /** infoStartCol: the column the information starts at, Spacing columns
      right of the widest art line, so that every art line fits left of it. */
  function InfoColumn(art: seq<string>): (col: nat)
    ensures FitsColumn(art, col)
  {
    WidestLineFits(art, WidestLine(art) + Spacing);
    WidestLine(art) + Spacing
  }

  /** The art part of printed row i: the art line padded with spaces to the
      information column, or only spaces below the art. */
  function ArtColumn(art: seq<string>, i: nat, infoStartCol: nat): string
    requires FitsColumn(art, infoStartCol)
  {
    if i < |art| then art[i] + Spaces(infoStartCol - VisibleWidth(art[i])) else Spaces(infoStartCol)
  }

  /** Printed row i: two columns of left padding, the art column and the
      information line, if any. */
  function Row(art: seq<string>, info: seq<string>, infoStartCol: nat, i: nat): string
    requires FitsColumn(art, infoStartCol)
  {
    "  " + ArtColumn(art, i, infoStartCol) + (if i < |info| then info[i] else "")
  }

  /** The first n printed rows. */
  function Rows(art: seq<string>, info: seq<string>, infoStartCol: nat, n: nat): (rows: seq<string>)
    requires FitsColumn(art, infoStartCol)
    ensures |rows| == n
  {
    if n == 0 then [] else Rows(art, info, infoStartCol, n - 1) + [Row(art, info, infoStartCol, n - 1)]
  }

  /** displayCard, with the printed text as the list of printed lines: an
      empty line, one row per art or information line, and an empty line.
      `termProbe` is what term.GetSize reported; `description` is the
      wrapped alt text, as wrapText returned it. */
  method DisplayCard(c: Card, ansiArt: string, deckName: string, termProbe: Option<int>, st: Styling)
    returns (out: seq<string>, description: seq<string>)
    ensures c.altText != "" ==>
              IsWrapOf(description, c.altText,
                       InfoWidth(TerminalWidth(termProbe), WidestLine(Split(ansiArt, '\n'))))
    ensures var art, info := Split(ansiArt, '\n'), InfoLines(c, deckName, st, description);
            out == [""] + Rows(art, info, InfoColumn(art), Max(|art|, |info|)) + [""]
  {
    var ansiLines := Split(ansiArt, '\n');
    var maxAnsiWidth := MaxAnsiWidth(ansiLines);
    var width := TerminalWidth(termProbe);
    var infoWidth := InfoWidth(width, maxAnsiWidth);
    var infoLines;
    infoLines, description := BuildInfoLines(c, deckName, st, infoWidth);
    var rows := PrintRows(ansiLines, infoLines, maxAnsiWidth, Max(|ansiLines|, |infoLines|));
    out := [""] + rows + [""];
  }

  /** The information lines of displayCard, with the alt text wrapped to
      `infoWidth` columns. */
  method BuildInfoLines(c: Card, deckName: string, st: Styling, infoWidth: int)
    returns (infoLines: seq<string>, description: seq<string>)
    ensures c.altText != "" ==> IsWrapOf(description, c.altText, infoWidth)
    ensures infoLines == InfoLines(c, deckName, st, description)
  {
    infoLines := InfoHeader(c, deckName, st);
    description := [];
    if c.altText != "" {
      var descLines := WrapText(c.altText, infoWidth);
      description := descLines;
      infoLines := infoLines + ["", st.cyan("Description:")] + descLines;
    }
  }

  /** The row loop of displayCard: maxLines rows, each the padded art line
      followed by the information line. */
  method PrintRows(ansiLines: seq<string>, infoLines: seq<string>, maxAnsiWidth: nat, maxLines: nat)
    returns (rows: seq<string>)
    requires maxAnsiWidth == WidestLine(ansiLines)
    ensures rows == Rows(ansiLines, infoLines, InfoColumn(ansiLines), maxLines)
  {
    var infoStartCol := maxAnsiWidth + Spacing;
    assert infoStartCol == InfoColumn(ansiLines);
    rows := [];
    for i := 0 to maxLines
      invariant rows == Rows(ansiLines, infoLines, infoStartCol, i)
    {
      var row := PrintRow(ansiLines, infoLines, infoStartCol, i);
      rows := rows + [row];
    }
  }

  /** One pass of the row loop: the art column padded to infoStartCol, then
      the information column. */
  method PrintRow(ansiLines: seq<string>, infoLines: seq<string>, infoStartCol: nat, i: nat)
    returns (row: string)
    requires FitsColumn(ansiLines, infoStartCol)
    ensures row == Row(ansiLines, infoLines, infoStartCol, i)
  {
    var artColumn, infoColumn := "", "";
    if i < |ansiLines| {
      var stripped := StripAnsi(ansiLines[i]);
      var visibleWidth := Utf8Length(stripped);
      artColumn := ansiLines[i] + Spaces(infoStartCol - visibleWidth);
    } else {
      artColumn := Spaces(infoStartCol);
    }
    if i < |infoLines| {
      infoColumn := infoLines[i];
    }
    row := "  " + artColumn + infoColumn;
  }

  /** Every art line that leaves no escape open is padded to exactly the
      information column `col`, as displayCard measures widths; rows below
      the art are `col` spaces. */
  lemma ArtColumnWidth(art: seq<string>, col: nat, i: nat)
    requires FitsColumn(art, col)
    requires i < |art| ==> !InEscapeAfter(art[i], false)
    ensures VisibleWidth(ArtColumn(art, i, col)) == col
  {
    if i < |art| {
      var line := art[i];
      var pad := col - VisibleWidth(line);
      assert ArtColumn(art, i, col) == line + Spaces(pad);
      PaddedWidth(line, pad);
    } else {
      SpacesVisible(col);
    }
  }

  /** A line that leaves no escape open, padded with n spaces, is n wider. */
  lemma PaddedWidth(line: string, n: nat)
    requires !InEscapeAfter(line, false)
    ensures VisibleWidth(line + Spaces(n)) == VisibleWidth(line) + n
  {
    KeptFromConcat(line, Spaces(n), false);
    SpacesVisible(n);
    Utf8LengthConcat(VisibleText(line), Spaces(n));
  }

  /** Spaces are visible, one byte each. */
  lemma SpacesVisible(n: nat)
    ensures VisibleText(Spaces(n)) == Spaces(n)
    ensures Utf8Length(Spaces(n)) == n
  {
    assert Esc !in Spaces(n);
    PlainTextKept(Spaces(n));
    Utf8LengthAscii(Spaces(n));
  }

  /** The rows start with the two columns of padding, followed by the art
      line, and end with the information line of the same index. */
  lemma RowParts(art: seq<string>, info: seq<string>, infoStartCol: nat, n: nat, i: nat)
    requires FitsColumn(art, infoStartCol) && i < n
    ensures var row := Rows(art, info, infoStartCol, n)[i];
            && HasPrefix(row, "  " + (if i < |art| then art[i] else ""))
            && (i < |info| ==> HasSuffix(row, info[i]))
  {
    RowsIndex(art, info, infoStartCol, n, i);
    RowAffixes(art, info, infoStartCol, i);
  }

  lemma RowAffixes(art: seq<string>, info: seq<string>, infoStartCol: nat, i: nat)
    requires FitsColumn(art, infoStartCol)
    ensures var row := Row(art, info, infoStartCol, i);
            && HasPrefix(row, "  " + (if i < |art| then art[i] else ""))
            && (i < |info| ==> HasSuffix(row, info[i]))
  {
    var tail := if i < |info| then info[i] else "";
    if i < |art| {
      var pad := Spaces(infoStartCol - VisibleWidth(art[i]));
      assert Row(art, info, infoStartCol, i) == "  " + (art[i] + pad) + tail;
      PaddedAffixes("  ", art[i], pad, tail);
    } else {
      var pad := Spaces(infoStartCol);
      assert Row(art, info, infoStartCol, i) == "  " + ("" + pad) + tail;
      PaddedAffixes("  ", "", pad, tail);
    }
  }

  /** A padded line between a lead and a tail starts with the lead and the
      line and ends with the tail. */
  lemma PaddedAffixes(lead: string, line: string, pad: string, tail: string)
    ensures HasPrefix(lead + (line + pad) + tail, lead + line)
    ensures HasSuffix(lead + (line + pad) + tail, tail)
  {
    var s := lead + (line + pad) + tail;
    assert s == (lead + line) + (pad + tail);
    Affixes(lead + line, pad + tail);
    Affixes(lead + (line + pad), tail);
  }

  lemma {:induction false} RowsIndex(art: seq<string>, info: seq<string>, infoStartCol: nat, n: nat, i: nat)
    requires FitsColumn(art, infoStartCol) && i < n
    ensures Rows(art, info, infoStartCol, n)[i] == Row(art, info, infoStartCol, i)
  {
    if i < n - 1 {
      var rs := Rows(art, info, infoStartCol, n - 1);
      assert Rows(art, info, infoStartCol, n) == rs + [Row(art, info, infoStartCol, n - 1)];
      RowsIndex(art, info, infoStartCol, n - 1, i);
    }
  }
}
