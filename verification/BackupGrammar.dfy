/**
 The language that the backup reader accepts (`parseBackupRows` in archive.ts), as a grammar: a text is accepted
 exactly if it is of this form, and read as exactly its rows. Whatever else a downloaded text holds refuses it as
 a whole.
 */
module BackupGrammar {
  import opened Common
  import opened Text
  import opened DumpCodec

  // ---------- white space around a text ----------

  lemma {:induction false} TrimLeftSplits(s: string) returns (space: string)
    ensures AllSpace(space) && s == space + TrimLeft(s) && (TrimLeft(s) == "" || !IsSpace(TrimLeft(s)[0]))
  {
    space := "";
    if s != "" && IsSpace(s[0]) {
      var more := TrimLeftSplits(s[1..]);
      space := [s[0]] + more;
      assert s == [s[0]] + s[1..];
    }
  }

  lemma {:induction false} TrimRightSplits(s: string) returns (space: string)
    ensures AllSpace(space) && s == TrimRight(s) + space
      && (TrimRight(s) == "" || !IsSpace(TrimRight(s)[|TrimRight(s)| - 1]))
  {
    space := "";
    if s != "" && IsSpace(s[|s| - 1]) {
      var more := TrimRightSplits(s[..|s| - 1]);
      space := more + [s[|s| - 1]];
      assert s == s[..|s| - 1] + [s[|s| - 1]];
    }
  }

  lemma {:induction false} TrimRightSpace(s: string, space: string)
    requires AllSpace(space) && (s == "" || !IsSpace(s[|s| - 1]))
    ensures TrimRight(s + space) == s
  {
    if space == "" {
      assert s + space == s;
    } else {
      assert (s + space)[..|s + space| - 1] == s + space[..|space| - 1];
      TrimRightSpace(s, space[..|space| - 1]);
    }
  }

  lemma Trims(before: string, text: string, after: string)
    requires AllSpace(before) && AllSpace(after) && Tight(text)
    ensures Trim(before + text + after) == text
  {
    assert before + text + after == before + (text + after);
    TrimLeftSpace(before, text + after);
    TrimRightSpace(text, after);
  }

  lemma TrimSplits(s: string) returns (before: string, after: string)
    requires Trim(s) != ""
    ensures AllSpace(before) && AllSpace(after) && Tight(Trim(s)) && s == before + Trim(s) + after
  {
    before := TrimLeftSplits(s);
    after := TrimRightSplits(TrimLeft(s));
  }

  lemma TrimsAway(s: string)
    ensures Trim(s) == "" <==> AllSpace(s)
  {
    var before := TrimLeftSplits(s);
    var after := TrimRightSplits(TrimLeft(s));
    if AllSpace(s) { TrimAllSpace(s); }
  }

  // ---------- statements without rows ----------

  /** The same text but for the case of ASCII letters. */
  predicate IsFolded(s: string, pattern: string) { |s| == |pattern| && StartsFolded(s, pattern) }

  /** The text begins with these words, one space between them. */
  predicate BeginsWith(s: string, words: seq<string>) {
    words == [] ||
    var word := TakeWhile(FoldedNameChar, s);
    && IsFolded(word, words[0])
    && (|words| == 1 || (|word| < |s| && s[|word|] == ' ' && BeginsWith(s[|word| + 1..], words[1..])))
  }

  /** What a backup holds besides rows, up to case: a pragma, the definitions of tables and indexes, and the
      emptying of the sequence table. */
  predicate IsDefinition(s: string) {
    || s == "" || s == "DELETE FROM sqlite_sequence" || IsFolded(s, "PRAGMA foreign_keys=OFF")
    || BeginsWith(s, ["CREATE", "TABLE"]) || BeginsWith(s, ["CREATE", "INDEX"])
    || BeginsWith(s, ["CREATE", "UNIQUE", "INDEX"])
  }

  predicate IsWord(s: string) {
    s != "" && forall i :: 0 <= i < |s| ==> FoldedNameChar(s[i])
  }

  lemma FoldedKeeps(s: string, pattern: string, i: nat)
    requires StartsFolded(s, pattern) && i < |pattern|
    ensures FoldedNameChar(s[i]) == FoldedNameChar(pattern[i])
  {
  }

  /** A text that starts with a keyword at a word boundary has it for its first word. */
  lemma FirstWord(s: string, word: string)
    requires IsWord(word)
    ensures IsFolded(TakeWhile(FoldedNameChar, s), word) <==>
      StartsFolded(s, word) && (|s| == |word| || !FoldedNameChar(s[|word|]))
  {
    var first := TakeWhile(FoldedNameChar, s);
    TakeWhileEnds(s);
    if StartsFolded(s, word) && (|s| == |word| || !FoldedNameChar(s[|word|])) {
      forall i | 0 <= i < |word| ensures FoldedNameChar(s[..|word|][i]) { FoldedKeeps(s, word, i); }
      TakeWhileStops(FoldedNameChar, s[..|word|], s[|word|..]);
      assert s[..|word|] + s[|word|..] == s;
    }
    if IsFolded(first, word) {
      assert first == s[..|first|];
      forall i | 0 <= i < |word| ensures Lower(s[i]) == Lower(word[i]) { assert s[i] == first[i]; }
    }
  }

  lemma {:induction false} TakeWhileEnds(s: string)
    ensures var first := TakeWhile(FoldedNameChar, s); |first| < |s| ==> !FoldedNameChar(s[|first|])
  {
    if s != "" && FoldedNameChar(s[0]) { TakeWhileEnds(s[1..]); }
  }

  lemma OneWord(s: string, word: string)
    requires IsWord(word)
    ensures BeginsWith(s, [word]) <==> IsCreate(s, word)
  {
    FirstWord(s, word);
  }

  /** A text starts with two keywords exactly if it starts with the one and goes on with the other. */
  lemma FoldedParts(s: string, word: string, rest: string)
    ensures StartsFolded(s, word + (" " + rest)) <==>
      |s| > |word| && StartsFolded(s, word) && s[|word|] == ' ' && StartsFolded(s[|word| + 1..], rest)
  {
    var all := word + (" " + rest);
    if StartsFolded(s, all) {
      forall i | 0 <= i < |word| ensures Lower(s[i]) == Lower(word[i]) { assert all[i] == word[i]; }
      assert Lower(s[|word|]) == Lower(all[|word|]) == ' ';
      forall i | 0 <= i < |rest| ensures Lower(s[|word| + 1..][i]) == Lower(rest[i]) {
        assert all[|word| + 1 + i] == rest[i];
      }
    }
    if |s| > |word| && StartsFolded(s, word) && s[|word|] == ' ' && StartsFolded(s[|word| + 1..], rest) {
      forall i | 0 <= i < |all| ensures Lower(s[i]) == Lower(all[i]) {
        if i > |word| { assert s[i] == s[|word| + 1..][i - |word| - 1]; }
      }
    }
  }

  lemma MoreWords(s: string, word: string, words: seq<string>, rest: string)
    requires IsWord(word) && words != [] && rest != ""
    requires |s| > |word| ==> (BeginsWith(s[|word| + 1..], words) <==> IsCreate(s[|word| + 1..], rest))
    ensures BeginsWith(s, [word] + words) <==> IsCreate(s, word + (" " + rest))
  {
    FirstWord(s, word);
    FoldedParts(s, word, rest);
    hide StartsFolded, TakeWhile;
    assert ([word] + words)[1..] == words;
    assert FoldedNameChar(' ') == false;
    var all := word + (" " + rest);
    if |s| > |all| { assert s[|word| + 1..][|rest|] == s[|all|]; }
  }

  /** The reader passes over exactly these statements. */
  lemma SkippedExactly(s: string)
    ensures Skipped(s) <==> IsDefinition(s)
  {
    hide BeginsWith, IsCreate;
    assert "CREATE" + (" " + "TABLE") == "CREATE TABLE" && "CREATE" + (" " + "INDEX") == "CREATE INDEX";
    TwoWords(s, "CREATE", "TABLE");
    TwoWords(s, "CREATE", "INDEX");
    if |s| > 6 { TwoWords(s[7..], "UNIQUE", "INDEX"); }
    assert "UNIQUE" + (" " + "INDEX") == "UNIQUE INDEX";
    MoreWords(s, "CREATE", ["UNIQUE", "INDEX"], "UNIQUE INDEX");
    assert ["CREATE"] + ["UNIQUE", "INDEX"] == ["CREATE", "UNIQUE", "INDEX"];
    assert "CREATE" + (" " + "UNIQUE INDEX") == "CREATE UNIQUE INDEX";
  }

  lemma TwoWords(s: string, first: string, second: string)
    requires IsWord(first) && IsWord(second)
    ensures BeginsWith(s, [first, second]) <==> IsCreate(s, first + (" " + second))
  {
    hide BeginsWith, IsCreate;
    if |s| > |first| { OneWord(s[|first| + 1..], second); }
    MoreWords(s, first, [second], second);
    assert [first] + [second] == [first, second];
  }

  // ---------- values ----------

  /** One value with the white space around it. */
  datatype Item = Item(before: string, text: string, after: string, cell: Cell)

  /** A quoted text with its quotes doubled, or NULL or a number that may be read. */
  predicate IsLiteral(text: string, cell: Cell) {
    || (cell.Str? && text == Quoted('\'', cell.s))
    || (Tight(text) && text[0] != '\'' && ',' !in text && CellOf(text) == Some(cell))
  }

  predicate IsItem(it: Item) {
    AllSpace(it.before) && AllSpace(it.after) && IsLiteral(it.text, it.cell)
  }

  function ItemText(it: Item): string { it.before + it.text + it.after }

  function ItemsText(items: seq<Item>): string {
    if items == [] then ""
    else if |items| == 1 then ItemText(items[0])
    else ItemText(items[0]) + ("," + ItemsText(items[1..]))
  }

  function CellsOf(items: seq<Item>): (cells: seq<Cell>)
    ensures |cells| == |items|
  {
    if items == [] then [] else [items[0].cell] + CellsOf(items[1..])
  }

  /** Literals between commas, with any white space. */
  ghost predicate IsValues(data: string, cells: seq<Cell>) {
    exists items: seq<Item> :: AreValues(items, data, cells)
  }

  predicate AreValues(items: seq<Item>, data: string, cells: seq<Cell>) {
    (forall i :: 0 <= i < |items| ==> IsItem(items[i])) && data == ItemsText(items) && cells == CellsOf(items)
  }

  lemma DoubleStep(q: char, c: char, v: string)
    ensures Double(q, [c] + v) == (if c == q then [q, q] else [c]) + Double(q, v)
  {
    assert ([c] + v)[1..] == v;
  }

  lemma {:induction false} UnquoteSound(s: string)
    requires Unquote(s).Some?
    ensures var (v, rest) := Unquote(s).value;
      s == Double('\'', v) + ("'" + rest) && (rest == "" || rest[0] != '\'')
    decreases |s|
  {
    if s[0] == '\'' && !(|s| > 1 && s[1] == '\'') {
      assert s == "'" + s[1..];
    } else {
      var n := if s[0] == '\'' then 2 else 1;
      UnquoteSound(s[n..]);
      DoubleStep('\'', s[0], Unquote(s[n..]).value.0);
      hide Double;
      assert s == (if s[0] == '\'' then ['\'', '\''] else [s[0]]) + s[n..];
    }
  }

  lemma {:induction false} NotCommas(s: string)
    ensures ',' !in TakeWhile(NotComma, s)
    ensures |TakeWhile(NotComma, s)| < |s| ==> s[|TakeWhile(NotComma, s)|] == ','
  {
    if s != "" && s[0] != ',' { NotCommas(s[1..]); }
  }

  lemma QuotedIsLiteral(s: string) returns (text: string, after: string)
    requires s != "" && s[0] == '\'' && Unquote(s[1..]).Some?
    ensures var (v, rest) := Unquote(s[1..]).value;
      text == Quoted('\'', v) && AllSpace(after) && s == text + after + TrimLeft(rest)
  {
    var (v, rest) := Unquote(s[1..]).value;
    UnquoteSound(s[1..]);
    hide Unquote, Double, TrimLeft, AllSpace;
    text := Quoted('\'', v);
    after := TrimLeftSplits(rest);
    assert s == "'" + s[1..];
    assert s == text + rest;
  }

  lemma HeadStays(a: string, b: string)
    ensures a != "" ==> a + b != "" && (a + b)[0] == a[0]
  {
  }

  lemma TokenIsTight(s: string, token: string) returns (after: string)
    requires s != "" && !IsSpace(s[0]) && token <= s && Trim(token) != ""
    ensures AllSpace(after) && token == Trim(token) + after && Tight(Trim(token)) && Trim(token)[0] == s[0]
  {
    var before;
    before, after := TrimSplits(token);
    hide Trim;
    HeadStays(before, Trim(token) + after);
    assert token == before + (Trim(token) + after);
    assert before + Trim(token) + after == Trim(token) + after;
  }

  lemma TokenIsLiteral(s: string) returns (text: string, after: string)
    requires s != "" && !IsSpace(s[0]) && s[0] != '\'' && FirstCell(s).Some?
    ensures var (cell, rest) := FirstCell(s).value;
      IsLiteral(text, cell) && AllSpace(after) && s == text + after + TrimLeft(rest)
  {
    hide CellOf, TakeWhile, Trim, TrimLeft, AllSpace, Quoted;
    var token := TakeWhile(NotComma, s);
    NotCommas(s);
    EmptyIsNoCell();
    text := Trim(token);
    after := TokenIsTight(s, token);
    var rest := s[|token|..];
    CommaStays(rest);
    assert s == token + rest;
    forall c | c in text ensures c in token {}
  }

  /** The first value of a text is a literal, and white space up to what follows it. */
  lemma FirstIsLiteral(s: string) returns (text: string, after: string)
    requires s != "" && !IsSpace(s[0]) && FirstCell(s).Some?
    ensures var (cell, rest) := FirstCell(s).value;
      IsLiteral(text, cell) && AllSpace(after) && s == text + after + TrimLeft(rest)
  {
    hide CellOf, Trim, TrimLeft, AllSpace, Quoted, TakeWhile, Unquote;
    if s[0] == '\'' {
      text, after := QuotedIsLiteral(s);
    } else {
      text, after := TokenIsLiteral(s);
    }
  }

  lemma EmptyIsNoCell()
    ensures CellOf("").None?
  {
  }

  lemma CommaStays(rest: string)
    requires rest == "" || rest[0] == ','
    ensures TrimLeft(rest) == rest
  {
  }

  lemma QuotedReads(s: string, after: string, more: string)
    requires AllSpace(after) && (more == "" || more[0] == ',')
    ensures FirstCell(Quoted('\'', s) + (after + more)) == Some((Str(s), after + more))
  {
    var behind := after + more;
    var data := Quoted('\'', s) + behind;
    assert data[1..] == Double('\'', s) + "'" + behind;
    UnquoteDouble(s, behind);
    hide Double, Unquote;
  }

  lemma TokenEnds(text: string, after: string, more: string)
    requires AllSpace(after) && ',' !in text && (more == "" || more[0] == ',')
    ensures TakeWhile(NotComma, text + (after + more)) == text + after
  {
    var token := text + after;
    forall i | 0 <= i < |token| ensures NotComma(token[i]) {
      if i < |text| { assert token[i] in text; } else { assert token[i] == after[i - |text|]; }
    }
    TakeWhileStops(NotComma, token, more);
    hide TakeWhile, AllSpace;
    assert text + (after + more) == token + more;
  }

  lemma TokenTrims(text: string, after: string)
    requires AllSpace(after) && Tight(text)
    ensures Trim(text + after) == text
  {
    Trims("", text, after);
    assert "" + text + after == text + after;
  }

  lemma TokenReads(text: string, after: string, more: string)
    requires AllSpace(after) && (more == "" || more[0] == ',')
    requires Tight(text) && text[0] != '\'' && ',' !in text && CellOf(text).Some?
    ensures FirstCell(text + (after + more)) == Some((CellOf(text).value, more))
  {
    TokenEnds(text, after, more);
    TokenTrims(text, after);
    hide CellOf, Trim, TakeWhile, AllSpace;
    assert (text + (after + more))[0] == text[0];
    assert (text + (after + more))[|text + after|..] == more;
  }

  lemma ItemTrims(it: Item, more: string)
    requires IsItem(it)
    ensures it.text != "" && TrimLeft(ItemText(it) + more) == it.text + (it.after + more)
  {
    var data := it.text + (it.after + more);
    assert !IsSpace(it.text[0]);
    hide IsItem, IsLiteral;
    assert ItemText(it) + more == it.before + data;
    assert data[0] == it.text[0];
    assert AllSpace(it.before) by { SpaceBefore(it); }
    TrimLeftSpace(it.before, data);
  }

  lemma SpaceBefore(it: Item)
    requires IsItem(it)
    ensures AllSpace(it.before)
  {
  }

  /** A literal in front of a comma or at the end is read as its value. */
  lemma ItemReads(it: Item, more: string)
    requires IsItem(it) && (more == "" || more[0] == ',')
    ensures var data := TrimLeft(ItemText(it) + more);
      && data != "" && FirstCell(data).Some? && FirstCell(data).value.0 == it.cell
      && TrimLeft(FirstCell(data).value.1) == more
  {
    hide FirstCell, CellOf, TrimLeft, AllSpace, Quoted, ItemText;
    ItemTrims(it, more);
    TrimLeftSpace(it.after, more);
    CommaStays(more);
    if it.cell.Str? && it.text == Quoted('\'', it.cell.s) {
      QuotedReads(it.cell.s, it.after, more);
    } else {
      TokenReads(it.text, it.after, more);
    }
  }

  lemma ItemNotBlank(it: Item, more: string)
    requires IsItem(it)
    ensures Trim(ItemText(it) + more) != ""
  {
    var s := ItemText(it) + more;
    assert !IsSpace(it.text[0]);
    assert s[|it.before|] == it.text[0];
    TrimsAway(s);
  }

  // ---------- value lists ----------

  /** What follows the first value, white space aside. */
  function AfterFirst(data: string): string
    requires TrimLeft(data) != "" && FirstCell(TrimLeft(data)).Some?
  {
    TrimLeft(FirstCell(TrimLeft(data)).value.1)
  }

  lemma AfterShorter(data: string)
    requires TrimLeft(data) != "" && FirstCell(TrimLeft(data)).Some?
    ensures |AfterFirst(data)| <= |data|
  {
    hide TrimLeft;
    TrimLeftShorter(data);
    TrimLeftShorter(FirstCell(TrimLeft(data)).value.1);
  }

  /** What is read first, and what remains. */
  lemma ValuesStep(data: string)
    requires data != "" && ParseCells(data).Some?
    ensures TrimLeft(data) != "" && FirstCell(TrimLeft(data)).Some?
    ensures AfterFirst(data) == "" ==> ParseCells(data).value == [FirstCell(TrimLeft(data)).value.0]
    ensures AfterFirst(data) != "" ==>
      var more := AfterFirst(data)[1..];
      && AfterFirst(data)[0] == ',' && Trim(more) != "" && ParseCells(more).Some?
      && ParseCells(data).value == [FirstCell(TrimLeft(data)).value.0] + ParseCells(more).value
  {
    hide FirstCell, TrimLeft, Trim;
  }

  lemma NoBlankValues(data: string)
    requires Trim(data) != "" && ParseCells(data).Some?
    ensures ParseCells(data).value != []
  {
    if data == "" { TrimAllSpace(""); }
    hide FirstCell, TrimLeft, Trim;
  }

  /** The first value as an item. */
  lemma FirstIsItem(data: string) returns (it: Item)
    requires TrimLeft(data) != "" && FirstCell(TrimLeft(data)).Some?
    ensures IsItem(it) && it.cell == FirstCell(TrimLeft(data)).value.0
    ensures data == it.before + (it.text + it.after + AfterFirst(data))
  {
    hide FirstCell, TrimLeft, AllSpace, IsLiteral;
    var before := TrimLeftSplits(data);
    var text, after := FirstIsLiteral(TrimLeft(data));
    it := Item(before, text, after, FirstCell(TrimLeft(data)).value.0);
  }

  lemma {:induction false} ValuesSound(data: string) returns (items: seq<Item>)
    requires ParseCells(data).Some?
    ensures AreValues(items, data, ParseCells(data).value)
    decreases |data|
  {
    if data == "" {
      items := [];
    } else {
      hide ParseCells, FirstCell, TrimLeft, Trim, IsItem, AreValues, AfterFirst;
      ValuesStep(data);
      var it := FirstIsItem(data);
      var rest := AfterFirst(data);
      if rest == "" {
        items := [it];
        LastValue(it, data);
      } else {
        AfterShorter(data);
        var more := ValuesSound(rest[1..]);
        NoBlankValues(rest[1..]);
        items := [it] + more;
        assert rest == "," + rest[1..];
        NextValue(it, more, data, rest[1..], ParseCells(rest[1..]).value);
      }
    }
  }

  lemma LastValue(it: Item, data: string)
    requires IsItem(it) && data == it.before + (it.text + it.after + "")
    ensures AreValues([it], data, [it.cell])
  {
    hide IsItem;
    assert data == ItemText(it);
    assert CellsOf([it][1..]) == [];
  }

  lemma NextValue(it: Item, items: seq<Item>, data: string, rest: string, cells: seq<Cell>)
    requires IsItem(it) && AreValues(items, rest, cells) && cells != []
    requires data == it.before + (it.text + it.after + ("," + rest))
    ensures AreValues([it] + items, data, [it.cell] + cells)
  {
    hide IsItem;
    var all := [it] + items;
    assert all[1..] == items;
    assert data == ItemText(it) + ("," + rest);
  }

  lemma {:induction false} ValuesComplete(items: seq<Item>, data: string, cells: seq<Cell>)
    requires AreValues(items, data, cells)
    ensures ParseCells(data) == Some(cells)
  {
    hide FirstCell, TrimLeft, Trim, IsItem;
    if items != [] {
      var it := items[0];
      assert IsItem(it);
      assert data != "" by { assert ItemText(it) != "" by { NotEmpty(it); } }
      if |items| == 1 {
        ItemReads(it, "");
        assert ItemText(it) + "" == data;
        assert items[1..] == [] && cells == [it.cell];
      } else {
        var rest := ItemsText(items[1..]);
        ItemReads(it, "," + rest);
        RestNotBlank(items[1..]);
        ValuesComplete(items[1..], rest, CellsOf(items[1..]));
        assert ("," + rest)[1..] == rest;
      }
    }
  }

  lemma NotEmpty(it: Item)
    requires IsItem(it)
    ensures ItemText(it) != "" && it.text != ""
  {
  }

  lemma RestNotBlank(items: seq<Item>)
    requires items != [] && IsItem(items[0])
    ensures Trim(ItemsText(items)) != ""
  {
    hide Trim, IsItem;
    var it := items[0];
    if |items| == 1 {
      ItemNotBlank(it, "");
      assert ItemText(it) + "" == ItemText(it);
    } else {
      ItemNotBlank(it, "," + ItemsText(items[1..]));
    }
  }

  /** A value list is read exactly if it is made of literals, as their values. */
  lemma ValuesExactly(data: string, cells: seq<Cell>)
    ensures ParseCells(data) == Some(cells) <==> IsValues(data, cells)
  {
    hide ParseCells, AreValues;
    if ParseCells(data) == Some(cells) {
      var items := ValuesSound(data);
    }
    if IsValues(data, cells) {
      var items: seq<Item> :| AreValues(items, data, cells);
      ValuesComplete(items, data, cells);
    }
  }

  // ---------- one INSERT ----------

  /** A column as it may be written: with white space around it, quoted or not. */
  ghost predicate IsColumn(part: string, name: string) {
    IsIdentifier(name) && exists before, after :: Surrounds(before, after, part, name)
  }

  predicate Surrounds(before: string, after: string, part: string, name: string) {
    && AllSpace(before) && AllSpace(after)
    && (part == before + name + after || part == before + QuoteName(name) + after)
  }

  lemma UnquotedSound(core: string, name: string)
    requires Unquoted(core) == name
    ensures core == name || core == ['"'] + name + ['"']
  {
    if core != name { assert core == [core[0]] + core[1..|core| - 1] + [core[|core| - 1]]; }
  }

  lemma EmptyUnquotes(part: string, name: string)
    requires Unquoted(Trim(part)) == name && IsIdentifier(name)
    ensures Trim(part) != ""
  {
  }

  lemma ColumnSound(part: string, name: string)
    requires Unquoted(Trim(part)) == name && IsIdentifier(name)
    ensures IsColumn(part, name)
  {
    hide Trim, AllSpace, IsIdentifier, QuoteName, Unquoted;
    EmptyUnquotes(part, name);
    var before, after := TrimSplits(part);
    NameQuotes(name);
    UnquotedSound(Trim(part), name);
    assert Surrounds(before, after, part, name);
  }

  lemma ColumnComplete(part: string, name: string)
    requires IsColumn(part, name)
    ensures Unquoted(Trim(part)) == name
  {
    var before, after :| Surrounds(before, after, part, name);
    NameChars(name);
    NameQuotes(name);
    NameUnquotes(name);
    hide Trim, AllSpace, IsIdentifier, QuoteName, Unquoted;
    TrimTight("", name);
    TrimTight("", QuoteName(name));
    if part == before + name + after { Trims(before, name, after); } else { Trims(before, QuoteName(name), after); }
  }

  lemma ColumnExactly(part: string, name: string)
    ensures Unquoted(Trim(part)) == name && IsIdentifier(name) <==> IsColumn(part, name)
  {
    hide Unquoted, Trim, IsIdentifier;
    if Unquoted(Trim(part)) == name && IsIdentifier(name) { ColumnSound(part, name); }
    if IsColumn(part, name) { ColumnComplete(part, name); }
  }

  /** `[a-z_][a-z0-9_]*` in any case */
  predicate IsTableName(s: string) { IsWord(s) && !IsDigit(s[0]) }

  /** An INSERT as it may be written: the case of its keywords is free, and so is white space behind a quoted table
      name. */
  datatype Form = Form(verb: string, named: bool, gap: string, parts: seq<string>, keyword: string, data: string)

  function FormText(f: Form, table: string): string {
    f.verb + (TableText(f.named, f.gap, table) + ("(" + BodyText(f)))
  }

  function TableText(named: bool, gap: string, table: string): string {
    if named then "\"" + table + ("\"" + gap) else table
  }

  function BodyText(f: Form): string { JoinCommas(f.parts) + (f.keyword + f.data + ")") }

  ghost predicate IsForm(f: Form, row: Row) {
    && IsFolded(f.verb, INSERT) && IsFolded(f.keyword, VALUES)
    && (if f.named then IsTableName(row.table) && AllSpace(f.gap) else IsFolded(row.table, SEQUENCE))
    && |f.parts| == |row.columns| == |row.values| > 0 && Distinct(row.columns)
    && (forall i :: 0 <= i < |f.parts| ==> IsColumn(f.parts[i], row.columns[i]))
    && IsValues(f.data, row.values)
  }

  /** An INSERT of literals into the sequence table or a quoted one, as many as there are columns, whose names are
      identifiers and differ. */
  ghost predicate IsInsert(s: string, row: Row) {
    exists f :: IsForm(f, row) && s == FormText(f, row.table)
  }

  lemma {:induction false} JoinOfSplit(s: string)
    ensures JoinCommas(SplitCommas(s)) == s && SplitCommas(s) != []
    decreases |s|
  {
    var first := TakeWhile(NotComma, s);
    NotCommas(s);
    hide SplitCommas, TakeWhile;
    if |first| < |s| {
      var rest := s[|first| + 1..];
      assert s == first + "," + rest;
      SplitMore(first, rest);
      JoinOfSplit(rest);
      assert ([first] + SplitCommas(rest))[1..] == SplitCommas(rest);
    } else {
      SplitOne(s);
    }
  }

  lemma {:induction false} NotClosings(s: string)
    ensures ')' !in TakeWhile(NotClosing, s)
  {
    if s != "" && s[0] != ')' { NotClosings(s[1..]); }
  }

  /** What the pattern captures behind the opening parenthesis is a column list and a value list. */
  lemma BodySound(table: string, s: string)
    requires MatchBody(table, s).Some?
    ensures var m := MatchBody(table, s).value;
      && m.table == table && m.list != "" && ')' !in m.list
      && exists keyword :: IsFolded(keyword, VALUES) && s == m.list + (keyword + m.data + ")")
  {
    var m := MatchBody(table, s).value;
    NotClosings(s);
    var rest := s[|m.list|..];
    var keyword := rest[..|VALUES|];
    hide TakeWhile;
    assert s == m.list + rest;
    assert rest == keyword + rest[|VALUES|..];
    assert rest[|VALUES|..] == m.data + ")";
    assert rest == keyword + m.data + ")";
    forall i | 0 <= i < |VALUES| ensures Lower(keyword[i]) == Lower(VALUES[i]) { assert keyword[i] == rest[i]; }
    assert IsFolded(keyword, VALUES);
  }

  lemma BodyComplete(table: string, list: string, keyword: string, data: string)
    requires list != "" && ')' !in list && IsFolded(keyword, VALUES)
    ensures MatchBody(table, list + (keyword + data + ")")) == Some(Insert(table, list, data))
  {
    var rest := keyword + data + ")";
    assert Lower(keyword[0]) == Lower(VALUES[0]) && keyword[0] == ')';
    NotClosingAll(list);
    TakeWhileStops(NotClosing, list, rest);
    hide TakeWhile;
    assert (list + rest)[|list|..] == rest;
    assert rest[|VALUES|..|rest| - 1] == data;
    forall i | 0 <= i < |VALUES| ensures Lower(rest[i]) == Lower(VALUES[i]) { assert rest[i] == keyword[i]; }
  }

  lemma OpenSound(behind: string) returns (gap: string, body: string)
    requires behind != "" && behind[0] == '"' && TrimLeft(behind[1..]) != "" && TrimLeft(behind[1..])[0] == '('
    ensures AllSpace(gap) && behind == "\"" + gap + ("(" + body) && body == TrimLeft(behind[1..])[1..]
  {
    gap := TrimLeftSplits(behind[1..]);
    hide TrimLeft, AllSpace;
    var open := TrimLeft(behind[1..]);
    body := open[1..];
    assert open == "(" + body;
    assert behind == "\"" + behind[1..];
  }

  lemma TableTaken(rest: string)
    requires rest != "" && rest[0] == '"'
    requires var name := TakeWhile(FoldedNameChar, rest[1..]); name != "" && !IsDigit(name[0])
    ensures var name := TakeWhile(FoldedNameChar, rest[1..]);
      IsTableName(name) && rest == "\"" + name + rest[1 + |name|..]
  {
    TakeWhileTakes(rest[1..]);
    hide TakeWhile;
    var name := TakeWhile(FoldedNameChar, rest[1..]);
    assert rest[1..][..|name|] == name && rest[1..][|name|..] == rest[1 + |name|..];
  }

  lemma NamedSound(rest: string) returns (gap: string, body: string)
    requires rest != "" && rest[0] == '"' && MatchNamed(rest).Some?
    ensures var table := MatchNamed(rest).value.table;
      && IsTableName(table) && AllSpace(gap) && rest == "\"" + table + ("\"" + gap) + ("(" + body)
      && MatchNamed(rest) == MatchBody(table, body)
  {
    hide TakeWhile, TrimLeft, MatchBody, AllSpace, IsTableName, FoldedNameChar;
    TableTaken(rest);
    var name := TakeWhile(FoldedNameChar, rest[1..]);
    gap, body := OpenSound(rest[1 + |name|..]);
    BodyTable(name, body);
    assert rest == "\"" + name + ("\"" + gap + ("(" + body));
  }

  lemma BodyTable(table: string, s: string)
    ensures MatchBody(table, s).Some? ==> MatchBody(table, s).value.table == table
  {
  }

  lemma {:induction false} TakeWhileTakes(s: string)
    ensures forall i :: 0 <= i < |TakeWhile(FoldedNameChar, s)| ==> FoldedNameChar(TakeWhile(FoldedNameChar, s)[i])
  {
    if s != "" && FoldedNameChar(s[0]) { TakeWhileTakes(s[1..]); }
  }

  lemma NamedComplete(table: string, gap: string, body: string)
    requires IsTableName(table) && AllSpace(gap)
    ensures MatchNamed("\"" + table + ("\"" + gap) + ("(" + body)) == MatchBody(table, body)
  {
    var rest := "\"" + table + ("\"" + gap) + ("(" + body);
    var behind := "\"" + (gap + ("(" + body));
    TakeWhileStops(FoldedNameChar, table, behind);
    TrimLeftSpace(gap, "(" + body);
    hide TakeWhile, TrimLeft, MatchBody, AllSpace;
    assert rest[1..] == table + behind;
    assert rest[1 + |table|..] == behind;
    assert behind[1..] == gap + ("(" + body);
    assert ("(" + body)[1..] == body;
  }

  lemma MatchSound(s: string) returns (verb: string, named: bool, gap: string, body: string)
    requires MatchInsert(s).Some?
    ensures var table := MatchInsert(s).value.table;
      && IsFolded(verb, INSERT) && (if named then IsTableName(table) && AllSpace(gap) else IsFolded(table, SEQUENCE))
      && s == verb + (TableText(named, gap, table) + ("(" + body))
      && MatchInsert(s) == MatchBody(table, body)
  {
    hide MatchNamed, MatchBody, IsWord, AllSpace;
    verb, gap := s[..|INSERT|], "";
    forall i | 0 <= i < |INSERT| ensures Lower(verb[i]) == Lower(INSERT[i]) { assert verb[i] == s[i]; }
    var rest := s[|INSERT|..];
    assert s == verb + rest;
    named := rest != "" && rest[0] == '"';
    if named {
      gap, body := NamedSound(rest);
    } else {
      var table := rest[..|SEQUENCE|];
      body := rest[|SEQUENCE| + 1..];
      BodyTable(table, body);
      forall i | 0 <= i < |SEQUENCE| ensures Lower(table[i]) == Lower(SEQUENCE[i]) { assert table[i] == rest[i]; }
      assert rest == table + ("(" + body);
    }
  }

  lemma SequenceComplete(table: string, rest: string, body: string)
    requires IsFolded(table, SEQUENCE) && rest == table + ("(" + body)
    ensures rest[0] != '"' && StartsFolded(rest, SEQUENCE) && |rest| > |SEQUENCE| && rest[|SEQUENCE|] == '('
    ensures rest[..|SEQUENCE|] == table && rest[|SEQUENCE| + 1..] == body
  {
    forall i | 0 <= i < |SEQUENCE| ensures Lower(rest[i]) == Lower(SEQUENCE[i]) { assert rest[i] == table[i]; }
    assert Lower(rest[0]) == 's';
  }

  lemma MatchComplete(verb: string, named: bool, gap: string, table: string, body: string)
    requires IsFolded(verb, INSERT)
    requires if named then IsTableName(table) && AllSpace(gap) else IsFolded(table, SEQUENCE)
    ensures MatchInsert(verb + (TableText(named, gap, table) + ("(" + body))) == MatchBody(table, body)
  {
    var rest := TableText(named, gap, table) + ("(" + body);
    var s := verb + rest;
    forall i | 0 <= i < |INSERT| ensures Lower(s[i]) == Lower(INSERT[i]) { assert s[i] == verb[i]; }
    hide MatchNamed, MatchBody, IsWord, AllSpace, IsFolded;
    assert s[|INSERT|..] == rest;
    if named {
      NamedComplete(table, gap, body);
      assert rest[0] == '"';
    } else {
      SequenceComplete(table, rest, body);
    }
  }

  lemma InsertSound(s: string)
    requires ParseInsert(s).Some?
    ensures IsInsert(s, ParseInsert(s).value)
  {
    hide MatchInsert, MatchBody, ParseCells, SplitCommas, IsValues, IsIdentifier, IsWord, IsFolded, AllSpace,
      JoinCommas, IsColumn, Unquoted, Trim;
    var row := ParseInsert(s).value;
    var verb, named, gap, body := MatchSound(s);
    BodySound(row.table, body);
    var m := MatchInsert(s).value;
    var keyword :| IsFolded(keyword, VALUES) && body == m.list + (keyword + m.data + ")");
    var parts := SplitCommas(m.list);
    JoinOfSplit(m.list);
    ValuesExactly(m.data, row.values);
    forall i | 0 <= i < |parts| ensures IsColumn(parts[i], row.columns[i]) {
      ColumnExactly(parts[i], row.columns[i]);
    }
    var f := Form(verb, named, gap, parts, keyword, m.data);
    assert IsForm(f, row) && s == FormText(f, row.table);
  }

  lemma ColumnNotCut(part: string, name: string)
    requires IsColumn(part, name)
    ensures ',' !in part && ')' !in part && part != ""
  {
    var before, after :| Surrounds(before, after, part, name);
    NameChars(name);
    NameQuotes(name);
    hide QuoteName, IsIdentifier;
    if part == before + name + after {
      forall c | c in part ensures c != ',' && c != ')' {
        assert c in before || c in name || c in after;
      }
    } else {
      forall c | c in part ensures c != ',' && c != ')' {
        assert c in before || c in QuoteName(name) || c in after;
      }
    }
  }

  lemma InsertComplete(s: string, row: Row)
    requires IsInsert(s, row)
    ensures ParseInsert(s) == Some(row)
  {
    hide MatchInsert, MatchBody, ParseCells, SplitCommas, IsValues, IsIdentifier, IsWord, IsFolded, AllSpace,
      JoinCommas, IsColumn, Unquoted, Trim;
    var f: Form :| IsForm(f, row) && s == FormText(f, row.table);
    forall i | 0 <= i < |f.parts|
      ensures ',' !in f.parts[i] && ')' !in f.parts[i] && f.parts[i] != ""
      ensures Unquoted(Trim(f.parts[i])) == row.columns[i] && IsIdentifier(row.columns[i])
    {
      ColumnNotCut(f.parts[i], row.columns[i]);
      ColumnExactly(f.parts[i], row.columns[i]);
    }
    SplitJoined(f.parts);
    ListHasNoClosing(f.parts);
    JoinNotEmpty(f.parts);
    var list := JoinCommas(f.parts);
    MatchComplete(f.verb, f.named, f.gap, row.table, BodyText(f));
    BodyComplete(row.table, list, f.keyword, f.data);
    ValuesExactly(f.data, row.values);
    assert ColumnNames(f.parts) == row.columns;
  }

  /** A statement is read as a row exactly if it is an INSERT of that row. */
  lemma InsertsExactly(s: string, row: Row)
    ensures ParseInsert(s) == Some(row) <==> IsInsert(s, row)
  {
    hide ParseInsert, IsInsert;
    if ParseInsert(s) == Some(row) { InsertSound(s); }
    if IsInsert(s, row) { InsertComplete(s, row); }
  }

  // ---------- the whole text ----------

  /** Statements as they stand in a text, each with its semicolon. */
  function Terminated(ss: seq<string>): string {
    if ss == [] then "" else ss[0] + (";" + Terminated(ss[1..]))
  }

  function Trimmed(ss: seq<string>): (ts: seq<string>)
    ensures |ts| == |ss| && forall i :: 0 <= i < |ss| ==> ts[i] == Trim(ss[i])
  {
    if ss == [] then [] else [Trim(ss[0])] + Trimmed(ss[1..])
  }

  /** Statements without an open quote or a semicolon outside quotes, and white space behind the last. */
  predicate IsText(sql: string, ss: seq<string>, tail: string) {
    (forall i :: 0 <= i < |ss| ==> Closed(ss[i])) && AllSpace(tail) && sql == Terminated(ss) + tail
  }

  /** The rows of some statements in order, definitions passed over. */
  ghost predicate AreRows(ss: seq<string>, rows: seq<Row>)
    decreases |ss|
  {
    if ss == [] then rows == []
    else if IsDefinition(ss[0]) then AreRows(ss[1..], rows)
    else rows != [] && IsInsert(ss[0], rows[0]) && AreRows(ss[1..], rows[1..])
  }

  /** A text of definitions and INSERTs. */
  ghost predicate IsBackup(sql: string, rows: seq<Row>) {
    exists ss: seq<string>, tail: string :: IsText(sql, ss, tail) && AreRows(Trimmed(ss), rows)
  }

  lemma {:induction false} RowsExactly(ss: seq<string>, rows: seq<Row>)
    ensures ParseStatements(ss) == Some(rows) <==> AreRows(ss, rows)
  {
    hide Skipped, ParseInsert, IsInsert, IsDefinition;
    if ss != [] {
      SkippedExactly(ss[0]);
      if Skipped(ss[0]) {
        RowsExactly(ss[1..], rows);
      } else if rows != [] {
        InsertsExactly(ss[0], rows[0]);
        RowsExactly(ss[1..], rows[1..]);
        assert [rows[0]] + rows[1..] == rows;
      }
    }
  }

  /** One character more. */
  lemma SplitStep(s: string, st: Scan, current: string)
    requires s != ""
    ensures !Ends(st, s[0]) ==> Split(s, st, current) == Split(s[1..], Next(st, s[0]), current + [s[0]])
    ensures Ends(st, s[0]) ==>
      var rest := Split(s[1..], Outside, "");
      Split(s, st, current) == if rest.None? then None else Some([Trim(current)] + rest.value)
  {
    hide Trim;
  }

  lemma StatementBefore(current: string, sql: string, ss: seq<string>, tail: string)
    requires Closed(current) && IsText(sql, ss, tail)
    ensures IsText(current + (";" + sql), [current] + ss, tail)
    ensures Trimmed([current] + ss) == [Trim(current)] + Trimmed(ss)
  {
    hide Closed, Trim, AllSpace;
    var all := [current] + ss;
    assert all[1..] == ss;
    assert current + (";" + sql) == current + (";" + Terminated(ss)) + tail;
  }

  lemma {:induction false} SplitSound(s: string, st: Scan, current: string) returns (ss: seq<string>, tail: string)
    requires Split(s, st, current).Some? && Walk(current, Outside) == Some(st)
    ensures IsText(current + s, ss, tail) && Split(s, st, current).value == Trimmed(ss)
    decreases |s|
  {
    if s == "" {
      hide Walk, Trim;
      ss, tail := [], current;
      TrimsAway(current);
      assert current + s == "" + tail;
    } else {
      hide Walk, Trim, Split, IsText;
      SplitStep(s, st, current);
      assert [s[0]] + s[1..] == s;
      if Ends(st, s[0]) {
        NothingWalked();
        var more;
        more, tail := SplitSound(s[1..], Outside, "");
        ss := [current] + more;
        assert "" + s[1..] == s[1..];
        StatementBefore(current, s[1..], more, tail);
        assert current + s == current + (";" + s[1..]);
      } else {
        StepWalked(current, s[0], st);
        ss, tail := SplitSound(s[1..], Next(st, s[0]), current + [s[0]]);
        assert current + [s[0]] + s[1..] == current + s;
      }
    }
  }

  lemma NothingWalked()
    ensures Walk("", Outside) == Some(Outside)
  {
  }

  lemma StepWalked(current: string, c: char, st: Scan)
    requires Walk(current, Outside) == Some(st) && !Ends(st, c)
    ensures Walk(current + [c], Outside) == Some(Next(st, c))
  {
    WalkConcat(current, [c], Outside);
    assert [c][1..] == "";
  }

  lemma {:induction false} SplitComplete(sql: string, ss: seq<string>, tail: string)
    requires IsText(sql, ss, tail)
    ensures Split(sql, Outside, "") == Some(Trimmed(ss))
    decreases |ss|
  {
    hide Walk, Trim;
    if ss == [] {
      assert sql == tail;
      TailSplits(tail);
    } else {
      var rest := Terminated(ss[1..]) + tail;
      SplitComplete(rest, ss[1..], tail);
      OneSplits(ss[0], rest);
      assert sql == ss[0] + (";" + rest);
    }
  }

  lemma OneSplits(s: string, rest: string)
    requires Closed(s)
    ensures Split(s + (";" + rest), Outside, "") ==
      if Split(rest, Outside, "").None? then None else Some([Trim(s)] + Split(rest, Outside, "").value)
  {
    SplitWalk(s, ";" + rest, Outside, "");
    hide Walk, Trim;
    assert (";" + rest)[1..] == rest && "" + s == s;
  }

  lemma TailSplits(tail: string)
    requires AllSpace(tail)
    ensures Split(tail, Outside, "") == Some([])
  {
    forall i | 0 <= i < |tail| ensures !IsQuote(tail[i]) && tail[i] != ';' { assert IsSpace(tail[i]); }
    PlainWalk(tail);
    SplitWalk(tail, "", Outside, "");
    TrimsAway(tail);
    hide Walk, Trim;
    assert tail + "" == tail && "" + tail == tail;
  }

  /** The reader accepts exactly the texts of definitions and INSERTs of literals, and returns exactly their rows. */
  lemma ReadsExactly(sql: string, rows: seq<Row>)
    ensures Parse(sql) == Some(rows) <==> IsBackup(sql, rows)
  {
    hide Split, IsText, ParseStatements, AreRows;
    if Parse(sql) == Some(rows) {
      NothingWalked();
      var ss, tail := SplitSound(sql, Outside, "");
      assert "" + sql == sql;
      RowsExactly(Trimmed(ss), rows);
    }
    if IsBackup(sql, rows) {
      var ss: seq<string>, tail :| IsText(sql, ss, tail) && AreRows(Trimmed(ss), rows);
      SplitComplete(sql, ss, tail);
      RowsExactly(Trimmed(ss), rows);
    }
  }

  /** A text has at most one reading, however its white space and semicolons are taken. */
  lemma BackupsAreUnambiguous(sql: string, a: seq<Row>, b: seq<Row>)
    requires IsBackup(sql, a) && IsBackup(sql, b)
    ensures a == b
  {
    hide IsBackup, Parse;
    ReadsExactly(sql, a);
    ReadsExactly(sql, b);
  }
}
