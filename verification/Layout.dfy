/** Greedy word wrap, as slips are laid out with it. */
module Layout {
  import opened Text

  /** The length of the run of characters a text begins with that are not blank. */
  function RunLength(s: string): (n: nat)
    ensures n <= |s| && (forall i :: 0 <= i < n ==> !IsBlank(s[i])) && (n < |s| ==> IsBlank(s[n]))
  {
    if s == [] || IsBlank(s[0]) then 0 else 1 + RunLength(s[1..])
  }

  /** The words of a text: its runs of characters that are not blank. */
  function Words(s: string): seq<string> {
    if s == [] then []
    else if IsBlank(s[0]) then Words(s[1..])
    else
      var n := RunLength(s);
      [s[..n]] + Words(s[n..])
  }

  /** Neither empty nor with a blank in it. */
  predicate Solid(w: string) {
    w != [] && forall c :: c in w ==> !IsBlank(c)
  }

  /** What is left of a text without its blanks. */
  function Ink(s: string): string {
    if s == [] then [] else (if IsBlank(s[0]) then [] else [s[0]]) + Ink(s[1..])
  }

  function Concat(parts: seq<string>): string {
    if parts == [] then [] else Concat(parts[..|parts| - 1]) + parts[|parts| - 1]
  }

  /** A word as it goes on lines: whole, or cut where it does not fit. */
  function Pieces(word: string, cols: nat): seq<string>
    requires cols > 0
  {
    if |word| <= cols then [word] else [word[..cols]] + Pieces(word[cols..], cols)
  }

  function AllPieces(words: seq<string>, cols: nat): seq<string>
    requires cols > 0
  {
    if words == [] then [] else AllPieces(words[..|words| - 1], cols) + Pieces(words[|words| - 1], cols)
  }

  /** Words on one line, a space between each two. */
  function Join(line: seq<string>): string {
    if line == [] then ""
    else if |line| == 1 then line[0]
    else Join(line[..|line| - 1]) + " " + line[|line| - 1]
  }

  function Width(line: seq<string>): nat {
    |Join(line)|
  }

  function JoinAll(lines: seq<seq<string>>): (r: seq<string>)
    ensures |r| == |lines| && forall i :: 0 <= i < |r| ==> r[i] == Join(lines[i])
  {
    seq(|lines|, i requires 0 <= i < |lines| => Join(lines[i]))
  }

  function Flatten(lines: seq<seq<string>>): seq<string> {
    if lines == [] then [] else Flatten(lines[..|lines| - 1]) + lines[|lines| - 1]
  }

  /** Breaking words, in their order, into lines that fit. */
  predicate IsBreak(lines: seq<seq<string>>, words: seq<string>, cols: nat) {
    Flatten(lines) == words && forall i :: 0 <= i < |lines| ==> lines[i] != [] && Width(lines[i]) <= cols
  }

  predicate Fits(lines: seq<seq<string>>, word: string, cols: nat) {
    lines != [] && Width(lines[|lines| - 1]) + 1 + |word| <= cols
  }

  /** One more word: on the last line if it fits there, else on a new one. */
  function Put(lines: seq<seq<string>>, word: string, cols: nat): seq<seq<string>> {
    if Fits(lines, word, cols) then lines[..|lines| - 1] + [lines[|lines| - 1] + [word]] else lines + [[word]]
  }

  function Greedy(words: seq<string>, cols: nat): seq<seq<string>> {
    if words == [] then [] else Put(Greedy(words[..|words| - 1], cols), words[|words| - 1], cols)
  }

  /** A line takes at least one character. */
  function Columns(width: nat): (cols: nat)
    ensures cols > 0
  {
    if width < 1 then 1 else width
  }

  /** The lines of a text. */
  function Wrapped(s: string, width: nat): seq<string> {
    JoinAll(Greedy(AllPieces(Words(s), Columns(width)), Columns(width)))
  }

  lemma {:induction false} WordsAreSolid(s: string)
    ensures forall w :: w in Words(s) ==> Solid(w)
  {
    if s != [] {
      if IsBlank(s[0]) {
        WordsAreSolid(s[1..]);
      } else {
        WordsAreSolid(s[RunLength(s)..]);
      }
    }
  }

  // The loop.

  /** The lines pushed and the one being filled, against the lines so far. A
      line that is full is pushed at once. */
  predicate Filling(lines: seq<string>, cur: string, broken: seq<seq<string>>, cols: nat) {
    if cur != "" then JoinAll(broken) == lines + [cur]
    else JoinAll(broken) == lines && (broken != [] ==> Width(broken[|broken| - 1]) == cols)
  }

  lemma JoinGrows(line: seq<string>, word: string)
    ensures Join(line + [word]) == if line == [] then word else Join(line) + " " + word
  {
    assert (line + [word])[..|line|] == line;
  }

  lemma PutJoins(broken: seq<seq<string>>, word: string, cols: nat)
    ensures JoinAll(Put(broken, word, cols)) ==
            if Fits(broken, word, cols) && broken[|broken| - 1] != []
            then JoinAll(broken)[..|broken| - 1] + [Join(broken[|broken| - 1]) + " " + word]
            else if Fits(broken, word, cols) then JoinAll(broken)[..|broken| - 1] + [word]
            else JoinAll(broken) + [word]
  {
    if broken != [] {
      JoinGrows(broken[|broken| - 1], word);
    }
    JoinGrows([], word);
  }

  lemma PutFull(lines: seq<string>, cur: string, broken: seq<seq<string>>, word: string, cols: nat)
    requires cols > 0 && |word| == cols && Filling(lines, cur, broken, cols)
    ensures Filling((if cur != "" then lines + [cur] else lines) + [word], "", Put(broken, word, cols), cols)
  {
    PutJoins(broken, word, cols);
    JoinGrows([], word);
  }

  lemma PutWord(lines: seq<string>, cur: string, broken: seq<seq<string>>, word: string, cols: nat)
    requires 0 < |word| <= cols && Filling(lines, cur, broken, cols)
    ensures cur == "" ==> Filling(lines, word, Put(broken, word, cols), cols)
    ensures cur != "" && |cur| + 1 + |word| > cols ==> Filling(lines + [cur], word, Put(broken, word, cols), cols)
    ensures cur != "" && |cur| + 1 + |word| <= cols ==> Filling(lines, cur + " " + word, Put(broken, word, cols), cols)
  {
    PutJoins(broken, word, cols);
    if cur != "" {
      assert JoinAll(broken)[|broken| - 1] == cur;
      assert JoinAll(broken)[..|broken| - 1] == lines;
    }
  }

  /** The lines pushed and the one being filled, after some pieces. */
  predicate Placed(lines: seq<string>, cur: string, pieces: seq<string>, cols: nat) {
    Filling(lines, cur, Greedy(pieces, cols), cols)
  }

  lemma PlaceFull(lines: seq<string>, cur: string, pieces: seq<string>, word: string, cols: nat)
    requires cols > 0 && |word| == cols && Placed(lines, cur, pieces, cols)
    ensures Placed((if cur != "" then lines + [cur] else lines) + [word], "", pieces + [word], cols)
  {
    PutFull(lines, cur, Greedy(pieces, cols), word, cols);
    assert (pieces + [word])[..|pieces|] == pieces;
  }

  lemma PlaceWord(lines: seq<string>, cur: string, pieces: seq<string>, word: string, cols: nat)
    requires 0 < |word| <= cols && Placed(lines, cur, pieces, cols)
    ensures cur == "" ==> Placed(lines, word, pieces + [word], cols)
    ensures cur != "" && |cur| + 1 + |word| > cols ==> Placed(lines + [cur], word, pieces + [word], cols)
    ensures cur != "" && |cur| + 1 + |word| <= cols ==> Placed(lines, cur + " " + word, pieces + [word], cols)
  {
    PutWord(lines, cur, Greedy(pieces, cols), word, cols);
    assert (pieces + [word])[..|pieces|] == pieces;
  }

  /** The pieces placed and those still to come of a word are all of it. */
  predicate PartWay(before: seq<string>, whole: string, pieces: seq<string>, word: string, cols: nat)
    requires cols > 0
  {
    word != "" && pieces + Pieces(word, cols) == before + Pieces(whole, cols)
  }

  lemma CutPiece(before: seq<string>, whole: string, pieces: seq<string>, word: string, cols: nat)
    requires 0 < cols < |word| && PartWay(before, whole, pieces, word, cols)
    ensures PartWay(before, whole, pieces + [word[..cols]], word[cols..], cols)
  {
    assert pieces + ([word[..cols]] + Pieces(word[cols..], cols)) == pieces + [word[..cols]] + Pieces(word[cols..], cols);
  }

  method Wrap(s: string, width: nat) returns (lines: seq<string>)
    ensures lines == Wrapped(s, width)
  {
    var cols := Columns(width);
    lines := [];
    var cur := "";
    var words := Words(s);
    WordsAreSolid(s);
    ghost var pieces: seq<string> := [];
    for i := 0 to |words|
      invariant pieces == AllPieces(words[..i], cols)
      invariant Placed(lines, cur, pieces, cols)
    {
      var word := words[i];
      assert Solid(word);
      ghost var before := pieces;
      while |word| > cols
        invariant PartWay(before, words[i], pieces, word, cols)
        invariant Placed(lines, cur, pieces, cols)
      {
        PlaceFull(lines, cur, pieces, word[..cols], cols);
        CutPiece(before, words[i], pieces, word, cols);
        if cur != "" {
          lines := lines + [cur];
          cur := "";
        }
        lines := lines + [word[..cols]];
        pieces := pieces + [word[..cols]];
        word := word[cols..];
      }
      PlaceWord(lines, cur, pieces, word, cols);
      if cur != "" && |cur| + 1 + |word| > cols {
        lines := lines + [cur];
        cur := "";
      }
      cur := if cur != "" then cur + " " + word else word;
      pieces := pieces + [word];
      assert words[..i + 1][..i] == words[..i];
    }
    assert words[..|words|] == words;
    if cur != "" {
      lines := lines + [cur];
    }
  }

  // What the lines are.

  lemma {:induction false} PutKeepsWords(lines: seq<seq<string>>, word: string, cols: nat)
    ensures Flatten(Put(lines, word, cols)) == Flatten(lines) + [word]
  {
    if Fits(lines, word, cols) {
      var k := |lines| - 1;
      assert Put(lines, word, cols)[..k] == lines[..k];
    } else {
      assert (lines + [[word]])[..|lines|] == lines;
    }
  }

  lemma PutBreaks(lines: seq<seq<string>>, words: seq<string>, word: string, cols: nat)
    requires IsBreak(lines, words, cols) && |word| <= cols
    ensures IsBreak(Put(lines, word, cols), words + [word], cols)
  {
    PutKeepsWords(lines, word, cols);
    JoinGrows([], word);
    if lines != [] {
      JoinGrows(lines[|lines| - 1], word);
    }
    var put := Put(lines, word, cols);
    forall i | 0 <= i < |put| ensures put[i] != [] && Width(put[i]) <= cols {
      assert i < |lines| - 1 ==> put[i] == lines[i];
    }
  }

  /** The greedy break is a break. */
  lemma {:induction false} GreedyBreaks(words: seq<string>, cols: nat)
    requires forall w :: w in words ==> |w| <= cols
    ensures IsBreak(Greedy(words, cols), words, cols)
  {
    if words != [] {
      var k := |words| - 1;
      GreedyBreaks(words[..k], cols);
      assert words == words[..k] + [words[k]];
      OneMoreGreedy(words, cols);
      PutBreaks(Greedy(words[..k], cols), words[..k], words[k], cols);
    }
  }

  lemma OneMoreGreedy(words: seq<string>, cols: nat)
    requires words != []
    ensures Greedy(words, cols) == Put(Greedy(words[..|words| - 1], cols), words[|words| - 1], cols)
  {
  }

  /** What a break of words is without its last word. */
  function Without(lines: seq<seq<string>>): seq<seq<string>>
    requires lines != [] && lines[|lines| - 1] != []
  {
    var k := |lines| - 1;
    var line := lines[k];
    if |line| == 1 then lines[..k] else lines[..k] + [line[..|line| - 1]]
  }

  lemma WithoutBreaks(lines: seq<seq<string>>, words: seq<string>, cols: nat)
    requires words != [] && IsBreak(lines, words, cols)
    ensures lines != [] && IsBreak(Without(lines), words[..|words| - 1], cols)
    ensures lines[|lines| - 1][|lines[|lines| - 1]| - 1] == words[|words| - 1]
  {
    var k := |lines| - 1;
    var line := lines[k];
    assert Flatten(lines) == Flatten(lines[..k]) + line;
    if |line| > 1 {
      var m := |line| - 1;
      assert (lines[..k] + [line[..m]])[..k] == lines[..k];
      assert line == line[..m] + [line[m]];
      JoinGrows(line[..m], line[m]);
    }
  }

  /** Ahead of every other break: fewer lines, or as many and the last one no wider. */
  predicate Ahead(a: seq<seq<string>>, b: seq<seq<string>>)
    requires a != [] && b != []
  {
    |a| < |b| || (|a| == |b| && Width(a[|a| - 1]) <= Width(b[|b| - 1]))
  }

  lemma {:induction false} GreedyIsAhead(words: seq<string>, cols: nat, other: seq<seq<string>>)
    requires words != [] && IsBreak(other, words, cols)
    ensures other != [] && Ahead(Greedy(words, cols), other)
  {
    var k := |words| - 1;
    WithoutBreaks(other, words, cols);
    var rest, line := Without(other), other[|other| - 1];
    var before := Greedy(words[..k], cols);
    if k == 0 {
      assert Flatten(rest) == [];
      EmptyBreak(rest, cols);
      assert Greedy(words, cols) == [[words[0]]];
      assert line == [words[0]];
    } else {
      GreedyIsAhead(words[..k], cols, rest);
      AheadStays(before, other, words[k], cols);
    }
  }

  lemma EmptyBreak(lines: seq<seq<string>>, cols: nat)
    requires IsBreak(lines, [], cols)
    ensures lines == []
  {
    FlattenKeeps(lines);
  }

  lemma FlattenKeeps(lines: seq<seq<string>>)
    ensures lines != [] && lines[|lines| - 1] != [] ==> Flatten(lines) != []
  {
    if lines != [] {
      assert Flatten(lines) == Flatten(lines[..|lines| - 1]) + lines[|lines| - 1];
    }
  }

  lemma AheadStays(before: seq<seq<string>>, other: seq<seq<string>>, word: string, cols: nat)
    requires before != [] && other != [] && other[|other| - 1] != [] && Without(other) != []
    requires Ahead(before, Without(other))
    requires other[|other| - 1][|other[|other| - 1]| - 1] == word && Width(other[|other| - 1]) <= cols
    ensures Ahead(Put(before, word, cols), other)
  {
    var line := other[|other| - 1];
    var m := |line| - 1;
    assert line == line[..m] + [word];
    JoinGrows(line[..m], word);
    JoinGrows(before[|before| - 1], word);
  }

  /** No break of the same words into lines that fit has fewer lines. */
  lemma GreedyIsFewest(words: seq<string>, cols: nat, other: seq<seq<string>>)
    requires IsBreak(other, words, cols)
    ensures |Greedy(words, cols)| <= |other|
  {
    if words != [] {
      GreedyIsAhead(words, cols, other);
    }
  }

  // What is on them.

  lemma {:induction false} InkOfConcat(a: string, b: string)
    ensures Ink(a + b) == Ink(a) + Ink(b)
  {
    if a == [] {
      assert a + b == b;
    } else {
      assert (a + b)[1..] == a[1..] + b;
      InkOfConcat(a[1..], b);
    }
  }

  lemma {:induction false} SolidIsInk(w: string)
    requires forall c :: c in w ==> !IsBlank(c)
    ensures Ink(w) == w
  {
    if w != [] {
      SolidIsInk(w[1..]);
      assert w == [w[0]] + w[1..];
    }
  }

  lemma {:induction false} ConcatAppends(a: seq<string>, b: seq<string>)
    ensures Concat(a + b) == Concat(a) + Concat(b)
  {
    if b == [] {
      assert a + b == a;
    } else {
      var k := |b| - 1;
      ConcatAppends(a, b[..k]);
      assert (a + b)[..|a + b| - 1] == a + b[..k];
    }
  }

  /** The words are what is left of a text without its blanks. */
  lemma {:induction false} WordsAreInk(s: string)
    ensures Concat(Words(s)) == Ink(s)
  {
    if s != [] {
      if IsBlank(s[0]) {
        WordsAreInk(s[1..]);
      } else {
        var n := RunLength(s);
        WordsAreInk(s[n..]);
        ConcatAppends([s[..n]], Words(s[n..]));
        assert Concat([s[..n]]) == s[..n];
        SolidIsInk(s[..n]);
        InkOfConcat(s[..n], s[n..]);
        assert s == s[..n] + s[n..];
      }
    }
  }

  lemma {:induction false} PiecesAreWord(word: string, cols: nat)
    requires cols > 0
    ensures Concat(Pieces(word, cols)) == word
  {
    if |word| <= cols {
      assert Concat([word]) == word;
    } else {
      PiecesAreWord(word[cols..], cols);
      ConcatAppends([word[..cols]], Pieces(word[cols..], cols));
      assert Concat([word[..cols]]) == word[..cols];
    }
  }

  /** A word that is cut is cut into full lines and a rest. */
  lemma {:induction false} CutsAreFull(word: string, cols: nat)
    requires cols > 0 && word != ""
    ensures var ps := Pieces(word, cols);
            ps != [] && 0 < |ps[|ps| - 1]| <= cols
            && (forall i :: 0 <= i < |ps| - 1 ==> |ps[i]| == cols) && (|word| <= cols ==> ps == [word])
  {
    if |word| > cols {
      CutsAreFull(word[cols..], cols);
    }
  }

  lemma {:induction false} AllPiecesAreWords(words: seq<string>, cols: nat)
    requires cols > 0
    ensures Concat(AllPieces(words, cols)) == Concat(words)
  {
    if words != [] {
      var k := |words| - 1;
      AllPiecesAreWords(words[..k], cols);
      PiecesAreWord(words[k], cols);
      ConcatAppends(AllPieces(words[..k], cols), Pieces(words[k], cols));
    }
  }

  lemma {:induction false} PiecesAreSolid(word: string, cols: nat)
    requires cols > 0 && Solid(word)
    ensures forall p :: p in Pieces(word, cols) ==> Solid(p) && |p| <= cols
  {
    if |word| > cols {
      assert forall c :: c in word[cols..] ==> c in word;
      PiecesAreSolid(word[cols..], cols);
    }
  }

  lemma {:induction false} AllPiecesAreSolid(words: seq<string>, cols: nat)
    requires cols > 0 && forall w :: w in words ==> Solid(w)
    ensures forall p :: p in AllPieces(words, cols) ==> Solid(p) && |p| <= cols
  {
    if words != [] {
      var k := |words| - 1;
      AllPiecesAreSolid(words[..k], cols);
      PiecesAreSolid(words[k], cols);
    }
  }

  lemma {:induction false} InkOfJoin(line: seq<string>)
    requires forall w :: w in line ==> Solid(w)
    ensures Ink(Join(line)) == Concat(line)
  {
    if |line| == 1 {
      assert line[0] in line;
      SolidIsInk(line[0]);
      assert line[..0] == [];
    } else if |line| > 1 {
      var k := |line| - 1;
      InkOfJoin(line[..k]);
      assert line[k] in line;
      SolidIsInk(line[k]);
      InkOfConcat(Join(line[..k]), " ");
      InkOfConcat(Join(line[..k]) + " ", line[k]);
      assert Ink(" ") == "";
    }
  }

  lemma {:induction false} InkOfLines(lines: seq<seq<string>>)
    requires forall w :: w in Flatten(lines) ==> Solid(w)
    ensures Ink(Concat(JoinAll(lines))) == Concat(Flatten(lines))
  {
    if lines != [] {
      var k := |lines| - 1;
      InkOfLines(lines[..k]);
      InkOfJoin(lines[k]);
      assert JoinAll(lines)[..k] == JoinAll(lines[..k]);
      InkOfConcat(Concat(JoinAll(lines[..k])), Join(lines[k]));
      ConcatAppends(Flatten(lines[..k]), lines[k]);
    }
  }

  /** The pieces of a text: whole words but for those too long for a line. */
  function TextPieces(s: string, cols: nat): seq<string>
    requires cols > 0
  {
    AllPieces(Words(s), cols)
  }

  lemma TextBreaks(s: string, cols: nat)
    requires cols > 0
    ensures IsBreak(Greedy(TextPieces(s, cols), cols), TextPieces(s, cols), cols)
    ensures forall p :: p in TextPieces(s, cols) ==> Solid(p) && |p| <= cols
  {
    WordsAreSolid(s);
    AllPiecesAreSolid(Words(s), cols);
    GreedyBreaks(TextPieces(s, cols), cols);
  }

  /** Wrapping loses, adds and moves no character that is not blank. */
  lemma WrapKeepsInk(s: string, width: nat)
    ensures Ink(Concat(Wrapped(s, width))) == Ink(s)
  {
    var cols := Columns(width);
    TextBreaks(s, cols);
    InkOfLines(Greedy(TextPieces(s, cols), cols));
    AllPiecesAreWords(Words(s), cols);
    WordsAreInk(s);
  }

  // Words.

  /** A blank parts words, wherever it stands. */
  lemma {:induction false} BlankPartsWords(a: string, c: char, b: string)
    requires IsBlank(c)
    ensures Words(a + [c] + b) == Words(a) + Words(b)
    decreases |a|
  {
    var s := a + [c] + b;
    if a == "" {
      assert s[1..] == b;
    } else if IsBlank(a[0]) {
      BlankPartsWords(a[1..], c, b);
      assert s[1..] == a[1..] + [c] + b;
    } else {
      RunStops(a, c, b);
      var n := RunLength(a);
      BlankPartsWords(a[n..], c, b);
      assert s[..n] == a[..n] && s[n..] == a[n..] + [c] + b;
      assert [a[..n]] + (Words(a[n..]) + Words(b)) == ([a[..n]] + Words(a[n..])) + Words(b);
    }
  }

  lemma RunStops(a: string, c: char, b: string)
    requires IsBlank(c)
    ensures RunLength(a + [c] + b) == RunLength(a)
  {
    var s, m, n := a + [c] + b, RunLength(a), RunLength(a + [c] + b);
    assert s[|a|] == c;
    assert forall i :: 0 <= i < |a| ==> s[i] == a[i];
  }

  /** And a text without a blank is one word. */
  lemma SolidIsWord(w: string)
    requires Solid(w)
    ensures Words(w) == [w]
  {
    var n := RunLength(w);
    assert forall i :: 0 <= i < |w| ==> w[i] in w;
    assert w[..n] == w && Words(w[n..]) == [];
  }

  lemma {:induction false} WordsOfJoin(line: seq<string>)
    requires forall w :: w in line ==> Solid(w)
    ensures Words(Join(line)) == line
  {
    if line != [] {
      var k := |line| - 1;
      assert line[k] in line;
      SolidIsWord(line[k]);
      if k > 0 {
        WordsOfJoin(line[..k]);
        assert " " == [' '];
        BlankPartsWords(Join(line[..k]), ' ', line[k]);
      }
      assert line == line[..k] + [line[k]];
    }
  }

  function WordsOfAll(lines: seq<string>): seq<string> {
    if lines == [] then [] else WordsOfAll(lines[..|lines| - 1]) + Words(lines[|lines| - 1])
  }

  lemma {:induction false} WordsOfLines(lines: seq<seq<string>>)
    requires forall w :: w in Flatten(lines) ==> Solid(w)
    ensures WordsOfAll(JoinAll(lines)) == Flatten(lines)
  {
    if lines != [] {
      var k := |lines| - 1;
      WordsOfLines(lines[..k]);
      WordsOfJoin(lines[k]);
      assert JoinAll(lines)[..k] == JoinAll(lines[..k]);
    }
  }

  /** Read again, the lines have the words of the text, in order, those too long for a
      line cut; with none too long, its very words. */
  lemma WrapKeepsWords(s: string, width: nat)
    ensures WordsOfAll(Wrapped(s, width)) == TextPieces(s, Columns(width))
    ensures (forall w :: w in Words(s) ==> |w| <= Columns(width)) ==> WordsOfAll(Wrapped(s, width)) == Words(s)
  {
    var cols := Columns(width);
    TextBreaks(s, cols);
    WordsOfLines(Greedy(TextPieces(s, cols), cols));
    if forall w :: w in Words(s) ==> |w| <= cols {
      ShortWordsStay(Words(s), cols);
    }
  }

  lemma {:induction false} JoinHasNoEdges(line: seq<string>)
    requires line != [] && forall w :: w in line ==> Solid(w)
    ensures var j := Join(line); j != "" && !IsBlank(j[0]) && !IsBlank(j[|j| - 1])
  {
    var k := |line| - 1;
    assert line[k] in line && line[k][0] in line[k] && line[k][|line[k]| - 1] in line[k];
    if k > 0 {
      JoinHasNoEdges(line[..k]);
    }
  }

  lemma {:induction false} LinesAreOfWords(lines: seq<seq<string>>, i: nat)
    requires i < |lines|
    ensures forall w :: w in lines[i] ==> w in Flatten(lines)
  {
    var k := |lines| - 1;
    if i < k {
      LinesAreOfWords(lines[..k], i);
    }
  }

  /** Every line has something on it, fits, and begins and ends without a blank. */
  lemma WrapLinesFit(s: string, width: nat, i: nat)
    requires i < |Wrapped(s, width)|
    ensures var line := Wrapped(s, width)[i];
            line != "" && |line| <= Columns(width) && !IsBlank(line[0]) && !IsBlank(line[|line| - 1])
  {
    var cols := Columns(width);
    TextBreaks(s, cols);
    var lines := Greedy(TextPieces(s, cols), cols);
    LinesAreOfWords(lines, i);
    JoinHasNoEdges(lines[i]);
  }

  lemma {:induction false} ShortWordsStay(words: seq<string>, cols: nat)
    requires cols > 0 && forall w :: w in words ==> |w| <= cols
    ensures AllPieces(words, cols) == words
  {
    if words != [] {
      var k := |words| - 1;
      ShortWordsStay(words[..k], cols);
      assert words == words[..k] + [words[k]];
    }
  }

  /** With no word too long, no way to break the words in their order into
      lines that fit takes fewer lines. */
  lemma WrapIsFewest(s: string, width: nat, other: seq<seq<string>>)
    requires (forall w :: w in Words(s) ==> |w| <= Columns(width)) && IsBreak(other, Words(s), Columns(width))
    ensures |Wrapped(s, width)| <= |other|
  {
    var cols := Columns(width);
    ShortWordsStay(Words(s), cols);
    GreedyIsFewest(Words(s), cols, other);
  }
}
