/**
 * The cell clean-up of the producer scraper. The HTML table is given as its
 * rows, each row the texts of its `td` cells; the first row is the header.
 * Every cell is stripped and has its commas deleted, the cell in column 1
 * is cut at its first "(", and the empty cells of a row are dropped.
 */
module Scrape {
  import opened Text

  /** The prefix of `x` before its first "(", or `x` when it has none. */
  function CutAtParen(x: string): (r: string)
    ensures r <= x
    ensures '(' !in r
    ensures '(' !in x ==> r == x
  {
    var p := IndexOf(x, "(");
    assert p >= 0 ==> x[p] == '(' by {
      if p >= 0 { assert x[p..p + 1] == "("; }
    }
    assert forall j :: 0 <= j < |x| && x[j] == '(' ==> OccursAt(x, "(", j) by {
      forall j | 0 <= j < |x| && x[j] == '(' ensures OccursAt(x, "(", j) {
        assert x[j..j + 1] == [x[j]];
      }
    }
    if p != -1 then x[0..p] else x
  }

  /** The clean text of the cell at column `idx` whose raw text is `raw`. */
  function NormaliseCell(idx: nat, raw: string): (x: string)
    ensures ',' !in x
    ensures x <= RemoveChar(Strip(raw), ',')
    ensures idx == 1 ==> '(' !in x
    ensures idx != 1 ==> x == RemoveChar(Strip(raw), ',')
    ensures idx == 1 && '(' !in RemoveChar(Strip(raw), ',') ==> x == RemoveChar(Strip(raw), ',')
    ensures idx == 1 ==> forall k ::
      (0 <= k < |RemoveChar(Strip(raw), ',')| && RemoveChar(Strip(raw), ',')[k] == '('
       && '(' !in RemoveChar(Strip(raw), ',')[..k]) ==> x == RemoveChar(Strip(raw), ',')[..k]
  {
    var y := RemoveChar(Strip(raw), ',');
    assert forall k :: 0 <= k < |y| && y[k] == '(' && '(' !in y[..k] ==> CutAtParen(y) == y[..k] by {
      forall k | 0 <= k < |y| && y[k] == '(' && '(' !in y[..k] ensures CutAtParen(y) == y[..k] {
        CutAtFirstParen(y, k);
      }
    }
    if idx == 1 then CutAtParen(y) else y
  }

  /** The first `n` cells of `cols`, each passed to `f` with its column index. */
  function MapWithIndex(f: (nat, string) -> string, cols: seq<string>, n: nat): (r: seq<string>)
    requires n <= |cols|
    ensures |r| == n
  {
    if n == 0 then [] else MapWithIndex(f, cols, n - 1) + [f(n - 1, cols[n - 1])]
  }

  /** Entry `i` of the indexed map is `f` applied to cell `i` at index `i`. */
  lemma {:induction false} MapWithIndexAt(f: (nat, string) -> string, cols: seq<string>, n: nat, i: nat)
    requires i < n <= |cols|
    ensures MapWithIndex(f, cols, n)[i] == f(i, cols[i])
  {
    if i < n - 1 {
      MapWithIndexAt(f, cols, n - 1, i);
    }
  }

  /** Every cell of `cols`, cleaned at its own column index. */
  function NormaliseCells(cols: seq<string>): (r: seq<string>)
    ensures |r| == |cols|
  {
    MapWithIndex(NormaliseCell, cols, |cols|)
  }

  /** Cell `i` of a cleaned row is raw cell `i` cleaned at column `i`. */
  lemma NormaliseCellsAt(cols: seq<string>, i: nat)
    requires i < |cols|
    ensures NormaliseCells(cols)[i] == NormaliseCell(i, cols[i])
  {
    MapWithIndexAt(NormaliseCell, cols, |cols|, i);
  }

  /** `[item for item in cells if item]`: the non-empty cells, in order. */
  function NonEmpty(cells: seq<string>): (r: seq<string>)
    ensures |r| <= |cells|
    ensures "" !in r
  {
    if |cells| == 0 then []
    else if cells[0] == "" then NonEmpty(cells[1..])
    else [cells[0]] + NonEmpty(cells[1..])
  }

  /** A cell survives exactly when it is one of the row's cells and not empty. */
  lemma {:induction false} NonEmptyMembers(cells: seq<string>, x: string)
    ensures x in NonEmpty(cells) <==> x in cells && x != ""
  {
    if |cells| > 0 {
      NonEmptyMembers(cells[1..], x);
      assert cells == [cells[0]] + cells[1..];
    }
  }

  /** Dropping empty cells keeps the relative order of the others: it distributes over concatenation. */
  lemma {:induction false} NonEmptyAppend(a: seq<string>, b: seq<string>)
    ensures NonEmpty(a + b) == NonEmpty(a) + NonEmpty(b)
  {
    if |a| == 0 {
      assert a + b == b;
    } else {
      assert (a + b)[1..] == a[1..] + b;
      NonEmptyAppend(a[1..], b);
    }
  }

  /** The cleaned rows of `body`, in order. */
  function CleanRows(body: seq<seq<string>>): (data: seq<seq<string>>)
    ensures |data| == |body|
  {
    if |body| == 0 then [] else CleanRows(body[..|body| - 1]) + [NonEmpty(NormaliseCells(body[|body| - 1]))]
  }

  /** Row `k` of the cleaned rows is the non-empty cleaned cells of row `k`. */
  lemma {:induction false} CleanRowsAt(body: seq<seq<string>>, k: nat)
    requires k < |body|
    ensures CleanRows(body)[k] == NonEmpty(NormaliseCells(body[k]))
  {
    if k < |body| - 1 {
      CleanRowsAt(body[..|body| - 1], k);
    }
  }

  /** The table the scraper builds from `rows`: one cleaned row per row after the header. */
  function Scraped(rows: seq<seq<string>>): (data: seq<seq<string>>)
    ensures |data| == if |rows| == 0 then 0 else |rows| - 1
  {
    CleanRows(if |rows| == 0 then [] else rows[1..])
  }

  /** Row `k` of the scraped table comes from row `k + 1` of the input, the header being row 0. */
  lemma ScrapedRowAt(rows: seq<seq<string>>, k: nat)
    requires k + 1 < |rows|
    ensures Scraped(rows)[k] == NonEmpty(NormaliseCells(rows[k + 1]))
  {
    CleanRowsAt(rows[1..], k);
  }

  /** No cell of the scraped table is empty or holds a comma. */
  lemma ScrapedCellsClean(rows: seq<seq<string>>, k: nat, x: string)
    requires k < |Scraped(rows)| && x in Scraped(rows)[k]
    ensures x != "" && ',' !in x
  {
    ScrapedRowAt(rows, k);
    var cells := NormaliseCells(rows[k + 1]);
    NonEmptyMembers(cells, x);
    var i :| 0 <= i < |cells| && cells[i] == x;
    NormaliseCellsAt(rows[k + 1], i);
  }

  /** The inner loop of the scraper: clean each cell of one row in turn. */
  method NormaliseRow(cols: seq<string>) returns (currentList: seq<string>)
    ensures currentList == NormaliseCells(cols)
  {
    currentList := [];
    for idx := 0 to |cols|
      invariant currentList == MapWithIndex(NormaliseCell, cols, idx)
    {
      var x := RemoveChar(Strip(cols[idx]), ',');
      if idx == 1 {
        var oddCharacterIndex := IndexOf(x, "(");
        if oddCharacterIndex != -1 {
          x := x[0..oddCharacterIndex];
        }
      }
      assert x == NormaliseCell(idx, cols[idx]);
      currentList := currentList + [x];
    }
  }

  /**
   * The outer loop of the scraper: for each row after the header, clean its
   * cells, then append the non-empty ones.
   */
  method ScrapeRows(rows: seq<seq<string>>) returns (data: seq<seq<string>>)
    ensures data == Scraped(rows)
  {
    var body := if |rows| == 0 then [] else rows[1..];
    data := [];
    for r := 0 to |body|
      invariant data == CleanRows(body[..r])
    {
      assert body[..r + 1][..r] == body[..r];
      var currentList := NormaliseRow(body[r]);
      data := data + [NonEmpty(currentList)];
    }
    assert body[..|body|] == body;
  }

  /** The cut keeps exactly the prefix before the first "(". */
  lemma CutAtFirstParen(x: string, k: nat)
    requires k < |x| && x[k] == '(' && '(' !in x[..k]
    ensures CutAtParen(x) == x[..k]
  {
    assert x[k..k + 1] == "(";
    assert OccursAt(x, "(", k);
    forall j | 0 <= j < k ensures !OccursAt(x, "(", j) {
      assert x[j..j + 1] == [x[..k][j]];
    }
    assert IndexOf(x, "(") == k;
  }

  /**
   * The cut happens after stripping, so a space before the "(" survives:
   * " Brazil (a)" in column 1 becomes "Brazil ", while in column 2 the
   * parenthesis is kept.
   */
  lemma CutKeepsSpaceBeforeParen()
    ensures NormaliseCell(1, " Brazil (a)") == "Brazil "
    ensures NormaliseCell(2, " Brazil (a)") == "Brazil (a)"
  {
    BrazilStripped();
    BrazilCut();
  }

  /** The stripping and comma steps of `CutKeepsSpaceBeforeParen`. */
  lemma BrazilStripped()
    ensures RemoveChar(Strip(" Brazil (a)"), ',') == "Brazil (a)"
  {
    var raw := " Brazil (a)";
    assert LeadingSpaces(raw, 1) == 0;
    assert LeadingSpaces(raw, 0) == 1;
    assert TrailingSpaces(raw, 1, 11) == 0;
    assert raw[1..11] == "Brazil (a)";
    assert ',' !in "Brazil (a)";
  }

  /** The cut step of `CutKeepsSpaceBeforeParen`. */
  lemma BrazilCut()
    ensures CutAtParen("Brazil (a)") == "Brazil "
  {
    var t := "Brazil (a)";
    assert t[..7] == "Brazil ";
    CutAtFirstParen(t, 7);
  }

  /** Stripping and deleting commas clean a number: " 1,234 " becomes "1234". */
  lemma CommasDeletedAfterStrip()
    ensures NormaliseCell(3, " 1,234 ") == "1234"
  {
    NumberStripped();
    assert "1,234"[1..] == ",234" && ",234"[1..] == "234";
    assert RemoveChar("234", ',') == "234";
    assert RemoveChar("1,234", ',') == "1234";
  }

  /**
   * Stripping runs before the commas are deleted, so a space that a comma
   * shields from the strip survives: ", 5" becomes " 5", not "5".
   */
  lemma StripBeforeCommaRemoval()
    ensures NormaliseCell(0, ", 5") == " 5"
  {
    var raw := ", 5";
    assert LeadingSpaces(raw, 0) == 0;
    assert TrailingSpaces(raw, 0, 3) == 0;
    assert raw[0..3] == raw;
    assert Strip(raw) == raw;
    assert raw[1..] == " 5" && " 5"[1..] == "5" && "5"[1..] == "";
    assert RemoveChar(" 5", ',') == " 5";
  }

  /** The stripping step of `CommasDeletedAfterStrip`. */
  lemma NumberStripped()
    ensures Strip(" 1,234 ") == "1,234"
  {
    var raw := " 1,234 ";
    assert LeadingSpaces(raw, 1) == 0;
    assert LeadingSpaces(raw, 0) == 1;
    assert TrailingSpaces(raw, 1, 6) == 0;
    assert TrailingSpaces(raw, 1, 7) == 1;
    assert raw[1..6] == "1,234";
  }

  /** A cell holding only a comma and spaces cleans to the empty cell, which is then dropped. */
  lemma LoneCommaDropped()
    ensures NormaliseCell(0, " , ") == ""
    ensures NonEmpty([NormaliseCell(0, " , "), "x"]) == ["x"]
  {
    var blank := " , ";
    assert LeadingSpaces(blank, 1) == 0;
    assert LeadingSpaces(blank, 0) == 1;
    assert TrailingSpaces(blank, 1, 2) == 0;
    assert TrailingSpaces(blank, 1, 3) == 1;
    assert blank[1..2] == ",";
    assert Strip(blank) == ",";
    assert RemoveChar(",", ',') == "";
    assert ["", "x"][1..] == ["x"];
  }
}
