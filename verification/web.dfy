/**
 * What both programs do with the answers of the search engine and of a web
 * page fetch once those answers are in hand: the numbered listing of search
 * hits, and the cleaning and truncation of the text extracted from a page.
 * The search engine, the HTTP request and the HTML parser are inputs.
 */
module Web {
  import opened Wrappers
  import opened Text

  /** One search result, with the three fields both programs read from it. */
  datatype Hit = Hit(title: string, href: string, body: string)

  /** What the search library gives: not installed, an exception, or the results. */
  datatype SearchOutcome = ModuleMissing | SearchFailed(message: string) | Hits(hits: seq<Hit>)

  /** What fetching a page gives: an exception, or the text extracted from it. */
  datatype FetchOutcome = FetchFailed(message: string) | Page(text: string)

  // ---------------------------------------------------------------------
  // Search listing
  // ---------------------------------------------------------------------

  /** The two listing layouts: the agent tool's and the server handler's. */
  datatype Layout = AgentLayout | ServerLayout

  /** How many characters of a hit's body each layout shows. */
  function BodyLimit(layout: Layout): nat
  {
    match layout
    case AgentLayout => 200
    case ServerLayout => 300
  }

  /** The text for the hit numbered `i` (numbering starts at 1). */
  function HitBlock(layout: Layout, i: nat, h: Hit): string
  {
    var excerpt := Prefix(h.body, BodyLimit(layout));
    match layout
    case AgentLayout => NatToDecimal(i) + ". " + h.title + "\n   " + h.href + "\n   " + excerpt + "..."
    case ServerLayout => NatToDecimal(i) + ". **" + h.title + "**\n   URL: " + h.href + "\n   " + excerpt + "..."
  }

  /** The blocks of all hits, numbered from 1 in the order the engine gave them. */
  function HitBlocks(layout: Layout, hits: seq<Hit>): (r: seq<string>)
    ensures |r| == |hits|
  {
    seq(|hits|, i requires 0 <= i < |hits| => HitBlock(layout, i + 1, hits[i]))
  }

  /** The `for i, r in enumerate(results, 1)` loop that builds the blocks. */
  method FormatHits(layout: Layout, hits: seq<Hit>) returns (blocks: seq<string>)
    ensures blocks == HitBlocks(layout, hits)
  {
    blocks := [];
    var i := 0;
    while i < |hits|
      invariant 0 <= i <= |hits|
      invariant |blocks| == i
      invariant forall j :: 0 <= j < i ==> blocks[j] == HitBlock(layout, j + 1, hits[j])
    {
      blocks := blocks + [HitBlock(layout, i + 1, hits[i])];
      i := i + 1;
    }
  }

  /**
   * Each block opens with its own number and a dot, ends with an ellipsis, and
   * quotes at most the layout's limit of the body, taken from its start.
   */
  lemma HitBlockShape(layout: Layout, i: nat, h: Hit)
    ensures var b := HitBlock(layout, i, h);
      var num := NatToDecimal(i) + ". ";
      |num| <= |b| && b[..|num|] == num && b[|b| - 3..] == "..."
    ensures |Prefix(h.body, BodyLimit(layout))| <= BodyLimit(layout)
    ensures Prefix(h.body, BodyLimit(layout)) <= h.body
  {
    var b := HitBlock(layout, i, h);
    var num := NatToDecimal(i) + ". ";
    var excerpt := Prefix(h.body, BodyLimit(layout));
    match layout
    case AgentLayout =>
      assert b == num + (h.title + "\n   " + h.href + "\n   " + excerpt + "...");
    case ServerLayout =>
      assert b == num + ("**" + h.title + "**\n   URL: " + h.href + "\n   " + excerpt + "...");
  }

  /** The listing numbers the hits 1, 2, 3, ... in the order the engine gave them. */
  lemma HitBlocksNumbered(layout: Layout, hits: seq<Hit>, i: nat)
    requires i < |hits|
    ensures var b := HitBlocks(layout, hits)[i];
      var num := NatToDecimal(i + 1) + ". ";
      |num| <= |b| && b[..|num|] == num
  {
    HitBlockShape(layout, i + 1, hits[i]);
  }

  // ---------------------------------------------------------------------
  // Page text
  // ---------------------------------------------------------------------

  /** A cleaned line: not blank, and without whitespace at either end. */
  predicate Clean(line: string)
  {
    line != [] && Strip(line) == line
  }

  /** The stripped lines that are not blank, in order. */
  function KeptLines(lines: seq<string>): (r: seq<string>)
    ensures |r| <= |lines|
    ensures forall i :: 0 <= i < |r| ==> Clean(r[i])
    decreases |lines|
  {
    if lines == [] then []
    else if Strip(lines[0]) == [] then KeptLines(lines[1..])
    else
      StripIdempotent(lines[0]);
      [Strip(lines[0])] + KeptLines(lines[1..])
  }

  /** A single line is kept, stripped, exactly when it is not blank. */
  lemma KeptLinesSingle(line: string)
    ensures KeptLines([line]) == if Strip(line) == [] then [] else [Strip(line)]
  {
    assert [line][1..] == [];
  }

  /** Lines are kept one by one: the lines kept from `a + b` are those kept from `a`, then those kept from `b`, in order. */
  lemma {:induction false} KeptLinesAppend(a: seq<string>, b: seq<string>)
    ensures KeptLines(a + b) == KeptLines(a) + KeptLines(b)
    decreases |a|
  {
    if a == [] {
      assert a + b == b;
    } else {
      assert (a + b)[0] == a[0];
      assert (a + b)[1..] == a[1..] + b;
      KeptLinesAppend(a[1..], b);
    }
  }

  /** `[l.strip() for l in text.split('\n') if l.strip()]`. */
  function CleanLines(text: string): seq<string>
  {
    KeptLines(Split(text, '\n'))
  }

  /** None of `lines` holds a line break. */
  predicate Unbroken(lines: seq<string>)
  {
    forall i :: 0 <= i < |lines| ==> '\n' !in lines[i]
  }

  /** A cleaned line never holds a line break: splitting removed them, and stripping adds none. */
  lemma {:induction false} KeptLinesNoBreak(lines: seq<string>)
    requires Unbroken(lines)
    ensures Unbroken(KeptLines(lines))
    decreases |lines|
  {
    if lines != [] {
      var rest := KeptLines(lines[1..]);
      assert Unbroken(lines[1..]) by {
        forall i | 0 <= i < |lines| - 1 ensures '\n' !in lines[1..][i] {
          assert lines[1..][i] == lines[i + 1];
        }
      }
      KeptLinesNoBreak(lines[1..]);
      if Strip(lines[0]) != [] {
        var line := Strip(lines[0]);
        if '\n' in line {
          StripKeepsCharacters(lines[0], '\n');
        }
        UnbrokenCons(line, rest);
      }
    }
  }

  /** Putting an unbroken line in front of unbroken lines keeps them unbroken. */
  lemma UnbrokenCons(line: string, lines: seq<string>)
    requires '\n' !in line && Unbroken(lines)
    ensures Unbroken([line] + lines)
  {
    var all := [line] + lines;
    forall i | 0 <= i < |all| ensures '\n' !in all[i] {
      if i > 0 {
        assert all[i] == lines[i - 1];
      }
    }
  }

  /** Lines that are already clean are all kept, unchanged. */
  lemma {:induction false} KeptLinesOfClean(lines: seq<string>)
    requires forall i :: 0 <= i < |lines| ==> Clean(lines[i])
    ensures KeptLines(lines) == lines
    decreases |lines|
  {
    if lines != [] {
      KeptLinesOfClean(lines[1..]);
      assert [lines[0]] + lines[1..] == lines;
    }
  }

  /** Cleaned lines: none blank, none with whitespace at either end, none holding a line break. */
  lemma CleanLinesClean(text: string)
    ensures forall i :: 0 <= i < |CleanLines(text)| ==> Clean(CleanLines(text)[i])
    ensures Unbroken(CleanLines(text))
  {
    var lines := Split(text, '\n');
    assert Unbroken(lines);
    KeptLinesNoBreak(lines);
  }

  /** Joining the first lines back with line breaks and splitting again gives those lines. */
  lemma JoinedLinesSplit(text: string, n: nat)
    requires Prefix(CleanLines(text), n) != []
    ensures Split(Join(Prefix(CleanLines(text), n), "\n"), '\n') == Prefix(CleanLines(text), n)
  {
    var all, kept := CleanLines(text), Prefix(CleanLines(text), n);
    CleanLinesClean(text);
    forall i | 0 <= i < |kept| ensures '\n' !in kept[i] {
      assert kept[i] == all[i];
    }
    SplitJoin(kept, '\n');
  }

  /** Text with no line in it cleans to nothing. */
  lemma CleanLinesOfEmpty()
    ensures CleanLines([]) == []
  {
    var blank: string := [];
    assert Split(blank, '\n') == [blank];
    assert Strip(blank) == blank;
    assert [blank][1..] == [];
  }

  /** Clean lines joined with line breaks clean back to themselves. */
  lemma CleanLinesOfJoined(lines: seq<string>)
    requires forall i :: 0 <= i < |lines| ==> Clean(lines[i])
    requires Unbroken(lines)
    ensures CleanLines(Join(lines, "\n")) == lines
  {
    if lines == [] {
      CleanLinesOfEmpty();
    } else {
      SplitJoin(lines, '\n');
      KeptLinesOfClean(lines);
    }
  }

  /** Cleaning is idempotent: cleaning the joined cleaned text changes nothing. */
  lemma CleanLinesIdempotent(text: string)
    ensures CleanLines(Join(CleanLines(text), "\n")) == CleanLines(text)
  {
    CleanLinesClean(text);
    CleanLinesOfJoined(CleanLines(text));
  }

  /** The text a fetch tool returns: a header naming the URL, then at most `maxLines` cleaned lines cut to `maxChars`. */
  function FetchedText(url: string, text: string, maxLines: nat, maxChars: nat): string
  {
    "Content from " + url + ":\n\n" + Prefix(Join(Prefix(CleanLines(text), maxLines), "\n"), maxChars)
  }

  /**
   * The content after the header is a prefix of the first cleaned lines joined
   * by line breaks, at most `maxChars` long; when nothing was cut it gives those
   * lines back exactly.
   */
  lemma FetchedTextSpec(url: string, text: string, maxLines: nat, maxChars: nat)
    ensures var header := "Content from " + url + ":\n\n";
      var joined := Join(Prefix(CleanLines(text), maxLines), "\n");
      var r := FetchedText(url, text, maxLines, maxChars);
      |header| <= |r| <= |header| + maxChars && r[..|header|] == header && r[|header|..] <= joined
      && (|joined| <= maxChars && Prefix(CleanLines(text), maxLines) != [] ==>
            Split(r[|header|..], '\n') == Prefix(CleanLines(text), maxLines))
  {
    var header := "Content from " + url + ":\n\n";
    var joined := Join(Prefix(CleanLines(text), maxLines), "\n");
    var r := FetchedText(url, text, maxLines, maxChars);
    assert r == header + Prefix(joined, maxChars);
    assert r[|header|..] == Prefix(joined, maxChars);
    if |joined| <= maxChars && Prefix(CleanLines(text), maxLines) != [] {
      JoinedLinesSplit(text, maxLines);
    }
  }
}
