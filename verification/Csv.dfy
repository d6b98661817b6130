/** Lists kept as comma-separated text. */
module Csv {
  import opened Text

  // Always at least one piece.
  function Split(s: string): (pieces: seq<string>)
    ensures pieces != []
  {
    if s == "" then [""]
    else
      var rest := Split(s[1..]);
      if s[0] == ',' then [""] + rest else [[s[0]] + rest[0]] + rest[1..]
  }

  function Nonblank(pieces: seq<string>): seq<string> {
    if pieces == [] then []
    else (if Strip(pieces[0]) != "" then [Strip(pieces[0])] else []) + Nonblank(pieces[1..])
  }

  function ParseCsv(s: string): seq<string> {
    Nonblank(Split(s))
  }

  function Join(names: seq<string>): string {
    if names == [] then "" else if |names| == 1 then names[0] else names[0] + "," + Join(names[1..])
  }

  // A name the text form can hold: not blank, trimmed, without commas.
  predicate Clean(name: string) {
    name != "" && Trimmed(name) && ',' !in name
  }

  lemma {:induction false} SplitFirst(a: string, rest: string)
    requires ',' !in a
    ensures Split(a) == [a]
    ensures Split(a + "," + rest) == [a] + Split(rest)
  {
    if a == "" {
      assert a + "," + rest == "," + rest && ("," + rest)[1..] == rest;
    } else {
      SplitFirst(a[1..], rest);
      assert (a + "," + rest)[0] == a[0] && (a + "," + rest)[1..] == a[1..] + "," + rest;
      assert [a[0]] + a[1..] == a;
    }
  }

  // Parsing the joined text of clean names gives the names back.
  lemma {:induction false} ParseJoin(names: seq<string>)
    requires forall n :: n in names ==> Clean(n)
    ensures ParseCsv(Join(names)) == names
  {
    if names == [] {
      assert Nonblank([""]) == [];
    } else {
      assert Clean(names[0]);
      StripTrims(names[0]);
      SplitFirst(names[0], Join(names[1..]));
      if |names| == 1 {
        assert Nonblank([names[0]]) == [names[0]];
      } else {
        ParseJoin(names[1..]);
        assert ([names[0]] + Split(Join(names[1..])))[1..] == Split(Join(names[1..]));
      }
    }
  }

  lemma {:induction false} PiecesWithoutCommas(s: string)
    ensures forall p :: p in Split(s) ==> ',' !in p
  {
    if s == "" {
    } else {
      PiecesWithoutCommas(s[1..]);
    }
  }

  lemma {:induction false} NonblankClean(pieces: seq<string>)
    requires forall p :: p in pieces ==> ',' !in p
    ensures forall n :: n in Nonblank(pieces) ==> Clean(n)
  {
    if pieces == [] {
    } else {
      StripTrims(pieces[0]);
      NonblankClean(pieces[1..]);
    }
  }

  // Whatever the text, what is parsed from it survives being written and parsed again.
  lemma ParseJoinParse(s: string)
    ensures ParseCsv(Join(ParseCsv(s))) == ParseCsv(s)
    ensures forall n :: n in ParseCsv(s) ==> Clean(n)
  {
    PiecesWithoutCommas(s);
    NonblankClean(Split(s));
    ParseJoin(ParseCsv(s));
  }

  // Clean names are exactly those that come back alone.
  lemma CleanIff(name: string)
    ensures Clean(name) <==> ParseCsv(name) == [name]
  {
    if Clean(name) {
      ParseJoin([name]);
    } else {
      ParseJoinParse(name);
      assert ParseCsv(name) != [] ==> Clean(ParseCsv(name)[0]);
    }
  }

  /* Untidy text */

  // A name with white space around it; the name may be missing.
  datatype Cell = Cell(left: string, name: string, right: string)

  predicate Tidy(c: Cell) {
    Blank(c.left) && Blank(c.right) && (c.name == "" || Clean(c.name))
  }

  function Texts(cells: seq<Cell>): seq<string> {
    seq(|cells|, i requires 0 <= i < |cells| => cells[i].left + cells[i].name + cells[i].right)
  }

  function Names(cells: seq<Cell>): seq<string> {
    if cells == [] then []
    else (if cells[0].name == "" then [] else [cells[0].name]) + Names(cells[1..])
  }

  // Parsing drops the white space around names and the cells without one, and keeps the order.
  lemma {:induction false} ParseCells(cells: seq<Cell>)
    requires forall c :: c in cells ==> Tidy(c)
    requires forall c :: c in cells ==> ',' !in c.left && ',' !in c.right
    ensures ParseCsv(Join(Texts(cells))) == Names(cells)
  {
    if cells == [] {
      assert Nonblank([""]) == [];
    } else {
      var c, rest := cells[0], cells[1..];
      var text := c.left + c.name + c.right;
      assert c in cells && Texts(cells)[0] == text && Texts(cells)[1..] == Texts(rest);
      StripPadded(c.left, c.name, c.right);
      SplitFirst(text, Join(Texts(rest)));
      if rest == [] {
        assert Nonblank([text]) == (if c.name == "" then [] else [c.name]) + Nonblank([]);
      } else {
        ParseCells(rest);
        assert ([text] + Split(Join(Texts(rest))))[1..] == Split(Join(Texts(rest)));
      }
    }
  }
}
