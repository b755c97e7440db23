/**
 * The markdown prompt parser (src/services/promptParser.ts): it turns a markdown catalogue of
 * image prompts into an ordered list of `ImagePrompt`s, derives ids, folders and file names,
 * and groups the result by category.
 *
 * Catalogue format: a line `## <Category> Generation Prompts` opens a category; a line
 * `<digits>. **<Title>**` opens a prompt; the non-heading lines after it form its text.
 */
module PromptParser {

  import opened Wrappers
  import opened JsStrings
  import opened Sequences
  import opened ImageTypes

  // ---------------------------------------------------------------------------------------
  // Categories and folders

  /** `PROMPT_CATEGORIES[category] || 'misc'`: the folder of a category heading. */
  function CategoryKey(category: string): (key: string)
    ensures key != "" && forall i :: 0 <= i < |key| ==> 'a' <= key[i] <= 'z'
    ensures key == "misc" <==> !IsKnownCategory(category)
  {
    if category == "Scene Backgrounds" then "scenes"
    else if category == "NPC Characters" then "npcs"
    else if category == "Action Cards" then "cards"
    else if category == "UI Elements" then "ui"
    else if category == "Items & Equipment" then "items"
    else if category == "Creatures & Monsters" then "creatures"
    else if category == "World Elements" then "world"
    else "misc"
  }

  /** The seven category names of the prompt catalogue. */
  predicate IsKnownCategory(category: string) {
    category in {"Scene Backgrounds", "NPC Characters", "Action Cards", "UI Elements",
                 "Items & Equipment", "Creatures & Monsters", "World Elements"}
  }

  // ---------------------------------------------------------------------------------------
  // File names

  /** A lower-case ASCII letter or digit. */
  predicate IsLowerAlnum(c: char) {
    'a' <= c <= 'z' || IsDigit(c)
  }

  /** What survives `toLowerCase()` followed by `replace(/[^a-z0-9\s]/g, '')`. */
  predicate IsKept(c: char) {
    IsLowerAlnum(c) || IsWhitespace(c)
  }

  /** The part of `c.toLowerCase()` that survives removing everything but `[a-z0-9\s]`.
      Besides A-Z, two characters lower-case into ASCII letters: U+0130 (to "i" and a
      combining dot, which is removed) and the Kelvin sign U+212A (to "k"). */
  function LowerKept(c: char): (r: string)
    ensures forall i :: 0 <= i < |r| ==> IsKept(r[i])
  {
    if 'A' <= c <= 'Z' then [(c as int + 32) as char]
    else if c == '\U{130}' then "i"
    else if c == '\U{212A}' then "k"
    else if IsKept(c) then [c]
    else []
  }

  /** `s.toLowerCase().replace(/[^a-z0-9\s]/g, '')`. */
  function LowerStrip(s: string): (r: string)
    ensures forall i :: 0 <= i < |r| ==> IsKept(r[i])
  {
    if s == [] then [] else LowerStrip(s[..|s| - 1]) + LowerKept(s[|s| - 1])
  }

  /** `s.replace(/\s+/g, '_')`: every maximal run of white space becomes one underscore. */
  function CollapseWhitespace(s: string): (r: string)
    ensures |r| <= |s|
    ensures s == [] <==> r == []
  {
    if s == [] then []
    else
      var init := s[..|s| - 1];
      var c := s[|s| - 1];
      if !IsWhitespace(c) then CollapseWhitespace(init) + [c]
      else if init != [] && IsWhitespace(init[|init| - 1]) then CollapseWhitespace(init)
      else CollapseWhitespace(init) + "_"
  }

  /** Kept characters that are not white space are letters and digits. */
  predicate AllKept(s: string) {
    forall i :: 0 <= i < |s| ==> IsKept(s[i])
  }

  /** A string of letters, digits and single underscores. */
  predicate IsSnake(t: string) {
    && (forall i :: 0 <= i < |t| ==> IsLowerAlnum(t[i]) || t[i] == '_')
    && (forall i :: 0 <= i < |t| - 1 ==> !(t[i] == '_' && t[i + 1] == '_'))
  }

  /** On a string of lower-case letters, digits and white space, collapsing leaves only
      letters, digits and underscores, never two underscores in a row, and ends in an
      underscore exactly when the string ends in white space. */
  lemma {:induction false} CollapseWhitespaceClean(s: string)
    requires AllKept(s)
    ensures IsSnake(CollapseWhitespace(s))
    ensures s != [] ==> (CollapseWhitespace(s)[|CollapseWhitespace(s)| - 1] == '_' <==> IsWhitespace(s[|s| - 1]))
  {
    if s != [] {
      var init := s[..|s| - 1];
      var c := s[|s| - 1];
      assert AllKept(init) by {
        forall i | 0 <= i < |init| ensures IsKept(init[i]) {
          assert init[i] == s[i];
        }
      }
      assert IsKept(c);
      CollapseWhitespaceClean(init);
      var p := CollapseWhitespace(init);
      if !IsWhitespace(c) {
        SnocSnake(p, c);
      } else if init != [] && IsWhitespace(init[|init| - 1]) {
      } else {
        SnocSnake(p, '_');
      }
    }
  }

  /** Appending a letter, a digit, or an underscore after something other than an
      underscore keeps a string snake-shaped. */
  lemma SnocSnake(p: string, c: char)
    requires IsSnake(p)
    requires IsLowerAlnum(c) || (c == '_' && (p == [] || p[|p| - 1] != '_'))
    ensures IsSnake(p + [c])
  {
    var r := p + [c];
    assert forall i :: 0 <= i < |p| ==> r[i] == p[i];
  }

  /** A cleaned title: lower-case letters, digits and single underscores, at most 50 long. */
  predicate IsCleanTitle(t: string) {
    |t| <= 50 && IsSnake(t)
  }

  /** The title part of a file name: lower-cased, stripped of everything but letters, digits
      and white space, white-space runs turned into `_`, cut to its first 50 characters. */
  function CleanTitle(title: string): (r: string)
    ensures IsCleanTitle(r)
  {
    var c := CollapseWhitespace(LowerStrip(title));
    CollapseWhitespaceClean(LowerStrip(title));
    if |c| <= 50 then c
    else
      assert forall i :: 0 <= i < 50 ==> c[..50][i] == c[i];
      c[..50]
  }

  /** `generateFilename(title, category)`: `<category>_<clean title>.png`. */
  function GenerateFilename(title: string, category: string): (r: string)
    ensures |category| + 5 <= |r| <= |category| + 55
    ensures r[..|category| + 1] == category + "_"
    ensures r[|r| - 4..] == ".png"
    ensures IsCleanTitle(r[|category| + 1..|r| - 4])
  {
    var clean := CleanTitle(title);
    var r := category + "_" + clean + ".png";
    assert r[|category| + 1..|r| - 4] == clean;
    r
  }

  /** A string of lower-case letters and digits is its own clean title, cut to 50. */
  lemma CleanTitleOfPlain(title: string)
    requires forall i :: 0 <= i < |title| ==> IsLowerAlnum(title[i])
    ensures CleanTitle(title) == if |title| <= 50 then title else title[..50]
  {
    LowerStripOfPlain(title);
    CollapseOfPlain(title);
  }

  lemma {:induction false} LowerStripOfPlain(s: string)
    requires forall i :: 0 <= i < |s| ==> IsLowerAlnum(s[i])
    ensures LowerStrip(s) == s
  {
    if s != [] {
      LowerStripOfPlain(s[..|s| - 1]);
    }
  }

  lemma {:induction false} CollapseOfPlain(s: string)
    requires forall i :: 0 <= i < |s| ==> IsLowerAlnum(s[i])
    ensures CollapseWhitespace(s) == s
  {
    if s != [] {
      var init := s[..|s| - 1];
      assert IsLowerAlnum(s[|s| - 1]);
      CollapseOfPlain(init);
      assert s == init + [s[|s| - 1]];
    }
  }

  /** An ASCII letter of either case, an ASCII digit, or white space. */
  predicate IsTitleChar(c: char) {
    'A' <= c <= 'Z' || IsKept(c)
  }

  /** `toLowerCase()` on one character of that set: A-Z become a-z, the rest stay. */
  function AsciiLower(c: char): (r: char)
    requires IsTitleChar(c)
    ensures IsKept(r)
    ensures 'A' <= c <= 'Z' ==> r as int == c as int + 32
    ensures !('A' <= c <= 'Z') ==> r == c
  {
    if 'A' <= c <= 'Z' then (c as int + 32) as char else c
  }

  /** On ASCII letters, digits and white space, lower-casing and stripping drop nothing:
      the result has one character per input character, upper-case letters lowered. */
  lemma {:induction false} LowerStripOfTitle(s: string)
    requires forall i :: 0 <= i < |s| ==> IsTitleChar(s[i])
    ensures |LowerStrip(s)| == |s|
    ensures forall i :: 0 <= i < |s| ==> LowerStrip(s)[i] == AsciiLower(s[i])
  {
    if s != [] {
      var init := s[..|s| - 1];
      var c := s[|s| - 1];
      assert forall i :: 0 <= i < |init| ==> init[i] == s[i];
      LowerStripOfTitle(init);
      assert IsTitleChar(c);
      assert LowerKept(c) == [AsciiLower(c)];
    }
  }

  /** A non-empty run of white space collapses to one underscore. */
  lemma {:induction false} CollapseRun(w: string)
    requires w != [] && forall i :: 0 <= i < |w| ==> IsWhitespace(w[i])
    ensures CollapseWhitespace(w) == "_"
  {
    var init := w[..|w| - 1];
    assert IsWhitespace(w[|w| - 1]);
    if init != [] {
      assert forall i :: 0 <= i < |init| ==> init[i] == w[i];
      CollapseRun(init);
      assert IsWhitespace(init[|init| - 1]);
    }
  }

  /** One more character that is not white space is copied. */
  lemma CollapseSnocWord(init: string, c: char)
    requires !IsWhitespace(c)
    ensures CollapseWhitespace(init + [c]) == CollapseWhitespace(init) + [c]
  {
    var s := init + [c];
    assert s[..|s| - 1] == init && s[|s| - 1] == c;
  }

  /** One more white space after white space adds nothing. */
  lemma CollapseSnocRun(init: string, c: char)
    requires IsWhitespace(c) && init != [] && IsWhitespace(init[|init| - 1])
    ensures CollapseWhitespace(init + [c]) == CollapseWhitespace(init)
  {
    var s := init + [c];
    var prefix := s[..|s| - 1];
    assert prefix == init && s[|s| - 1] == c;
    assert prefix != [] && IsWhitespace(prefix[|prefix| - 1]);
  }

  /** White space after something other than white space adds one `_`. */
  lemma CollapseSnocSpace(init: string, c: char)
    requires IsWhitespace(c) && init != [] && !IsWhitespace(init[|init| - 1])
    ensures CollapseWhitespace(init + [c]) == CollapseWhitespace(init) + "_"
  {
    var s := init + [c];
    var prefix := s[..|s| - 1];
    assert prefix == init && s[|s| - 1] == c;
    assert prefix != [] && !IsWhitespace(prefix[|prefix| - 1]);
  }

  /** A single white space collapses to `_`. */
  lemma CollapseSingleSpace(c: char)
    requires IsWhitespace(c)
    ensures CollapseWhitespace([c]) == "_"
  {
    assert [c][..0] == [];
  }

  /** Concatenation regroups. */
  lemma AppendRegroup(a: string, b: string, c: string)
    ensures a + b + c == a + (b + c)
  {
  }

  /** Collapsing distributes over a concatenation that does not join two white-space runs. */
  lemma {:induction false} CollapseAppend(x: string, b: string)
    requires x == [] || b == [] || !IsWhitespace(x[|x| - 1]) || !IsWhitespace(b[0])
    ensures CollapseWhitespace(x + b) == CollapseWhitespace(x) + CollapseWhitespace(b)
  {
    if b == [] {
      assert x + b == x;
    } else {
      var b' := b[..|b| - 1];
      var c := b[|b| - 1];
      var init := x + b';
      assert b == b' + [c] && x + b == init + [c];
      assert b' == [] || b'[0] == b[0];
      CollapseAppend(x, b');
      var cx := CollapseWhitespace(x);
      var cb' := CollapseWhitespace(b');
      if !IsWhitespace(c) {
        AppendRegroup(cx, cb', [c]);
        CollapseSnocWord(init, c);
        CollapseSnocWord(b', c);
      } else if b' == [] {
        assert init == x && b == [c];
        CollapseSingleSpace(c);
        if x == [] {
          assert x + b == b;
        } else {
          CollapseSnocSpace(x, c);
        }
      } else if IsWhitespace(b'[|b'| - 1]) {
        assert init[|init| - 1] == b'[|b'| - 1];
        CollapseSnocRun(init, c);
        CollapseSnocRun(b', c);
      } else {
        assert init[|init| - 1] == b'[|b'| - 1];
        CollapseSnocSpace(init, c);
        CollapseSnocSpace(b', c);
        AppendRegroup(cx, cb', "_");
      }
    }
  }

  /** A white-space run between two words becomes exactly one underscore between them. */
  lemma CollapseBetweenWords(a: string, w: string, b: string)
    requires a == [] || !IsWhitespace(a[|a| - 1])
    requires w != [] && forall i :: 0 <= i < |w| ==> IsWhitespace(w[i])
    requires b == [] || !IsWhitespace(b[0])
    ensures CollapseWhitespace(a + w + b) == CollapseWhitespace(a) + "_" + CollapseWhitespace(b)
  {
    CollapseRun(w);
    CollapseAppend(a, w);
    var aw := a + w;
    assert CollapseWhitespace(aw) == CollapseWhitespace(a) + "_";
    CollapseAppend(aw, b);
    assert a + w + b == aw + b;
  }

  /** The catalogue title `Tavern Interior` lower-cases letter for letter. */
  lemma TavernInteriorLowered()
    ensures LowerStrip("Tavern Interior") == "tavern interior"
  {
    LowerStripOfTitle("Tavern Interior");
  }

  /** The space between its two words becomes one `_`. */
  lemma TavernInteriorCollapsed()
    ensures CollapseWhitespace("tavern interior") == "tavern_interior"
  {
    CollapseBetweenWords("tavern", " ", "interior");
    CollapseOfPlain("tavern");
    CollapseOfPlain("interior");
    assert "tavern" + " " + "interior" == "tavern interior";
  }

  /** A two-word catalogue title: capitals lowered, the space turned into `_`. */
  lemma TavernInteriorFilename()
    ensures GenerateFilename("Tavern Interior", "scenes") == "scenes_tavern_interior.png"
  {
    TavernInteriorLowered();
    TavernInteriorCollapsed();
    var c := CollapseWhitespace(LowerStrip("Tavern Interior"));
    assert c == "tavern_interior" && |c| <= 50;
    assert CleanTitle("Tavern Interior") == c;
    assert "scenes" + "_" + c + ".png" == "scenes_tavern_interior.png";
  }

  // ---------------------------------------------------------------------------------------
  // Prompt records

  /** `createImagePrompt(category, title, prompt, index)`. */
  function CreateImagePrompt(category: string, title: string, prompt: string, index: nat): (p: ImagePrompt)
    ensures p.folder == CategoryKey(category)
    ensures p.id == p.folder + "_" + NatToDecimal(index)
    ensures p.category == category && p.title == title
    ensures p.prompt == Trim(prompt) && IsTrimmed(p.prompt)
    ensures p.filename == GenerateFilename(title, p.folder)
  {
    TrimIsTrimmed(prompt);
    var key := CategoryKey(category);
    ImagePrompt(key + "_" + NatToDecimal(index), category, title, Trim(prompt),
                GenerateFilename(title, key), key)
  }

  /** The id `<folder>_<index>` determines both the folder and the index. */
  lemma IdDeterminesFolderAndIndex(f1: string, n1: nat, f2: string, n2: nat)
    requires forall i :: 0 <= i < |f1| ==> 'a' <= f1[i] <= 'z'
    requires forall i :: 0 <= i < |f2| ==> 'a' <= f2[i] <= 'z'
    requires f1 + "_" + NatToDecimal(n1) == f2 + "_" + NatToDecimal(n2)
    ensures f1 == f2 && n1 == n2
  {
    var id := f1 + "_" + NatToDecimal(n1);
    var d1, d2 := NatToDecimal(n1), NatToDecimal(n2);
    assert id[|f1|] == '_';
    assert id[|f2|] == '_';
    assert |f1| == |f2|;
    assert f1 == id[..|f1|] == f2;
    assert d1 == id[|f1| + 1..] == d2;
    DecimalInjective(n1, n2);
  }

  // ---------------------------------------------------------------------------------------
  // Line classification

  /** `line.startsWith('## ') && line.includes('Generation Prompts')`. */
  predicate IsCategoryHeader(line: string) {
    StartsWith(line, "## ") && Includes(line, "Generation Prompts")
  }

  /** `line.replace('## ', '').replace(' Generation Prompts', '').trim()`. */
  function HeaderCategory(line: string): (category: string)
    ensures IsTrimmed(category)
  {
    TrimIsTrimmed(ReplaceFirst(ReplaceFirst(line, "## ", ""), " Generation Prompts", ""));
    Trim(ReplaceFirst(ReplaceFirst(line, "## ", ""), " Generation Prompts", ""))
  }

  /** The number of leading ASCII digits of `s` from position `i`. */
  function DigitRun(s: string, i: nat): (n: nat)
    requires i <= |s|
    ensures i + n <= |s|
    ensures forall k :: i <= k < i + n ==> IsDigit(s[k])
    ensures i + n == |s| || !IsDigit(s[i + n])
    decreases |s| - i
  {
    if i < |s| && IsDigit(s[i]) then 1 + DigitRun(s, i + 1) else 0
  }

  /** Where the lazy group `(.*?)\*\*` started at `i` stops: the first `**` at or after `i`,
      provided no line terminator (which `.` does not match) comes before it. */
  function LazyTitleEnd(s: string, i: nat): (r: Option<nat>)
    requires i <= |s|
    ensures r.Some? ==> i <= r.value && OccursAt(s, "**", r.value)
    ensures r.Some? ==> forall k :: i <= k < r.value ==> !IsLineTerminator(s[k]) && !OccursAt(s, "**", k)
    ensures r.None? ==> forall j :: i <= j && OccursAt(s, "**", j) ==>
      exists k :: i <= k < j && IsLineTerminator(s[k])
    decreases |s| - i
  {
    if i + 2 > |s| then None
    else if s[i..i + 2] == "**" then Some(i)
    else if IsLineTerminator(s[i]) then None
    else LazyTitleEnd(s, i + 1)
  }

  /** `line.match` with the expression `^(\d+)\.\s\*\*(.*?)\*\*`, giving its second group
      (the title). */
  function MatchNumberedHeading(line: string): (m: Option<string>)
    ensures m.Some? ==> line != [] && IsDigit(line[0])
  {
    var n := DigitRun(line, 0);
    if n == 0 || n + 4 > |line| || line[n] != '.' || !IsWhitespace(line[n + 1])
       || line[n + 2..n + 4] != "**" then None
    else
      match LazyTitleEnd(line, n + 4)
      case None => None
      case Some(j) => Some(line[n + 4..j])
  }

  /** `line` has the shape the heading expression matches with `n` digits and title `t`,
      the title being the shortest one that the closing `**` allows. */
  predicate IsNumberedHeading(line: string, n: nat, t: string) {
    && n >= 1 && n + 6 + |t| <= |line|
    && (forall k :: 0 <= k < n ==> IsDigit(line[k]))
    && line[n] == '.' && IsWhitespace(line[n + 1]) && line[n + 2..n + 4] == "**"
    && line[n + 4..n + 4 + |t|] == t
    && line[n + 4 + |t|..n + 6 + |t|] == "**"
    && (forall k :: 0 <= k < |t| ==> !IsLineTerminator(t[k]) && !OccursAt(line, "**", n + 4 + k))
  }

  /** A match has the heading shape, with the leading digits all consumed. */
  lemma MatchNumberedHeadingSound(line: string)
    requires MatchNumberedHeading(line).Some?
    ensures IsNumberedHeading(line, DigitRun(line, 0), MatchNumberedHeading(line).value)
  {
    var n := DigitRun(line, 0);
    var j := LazyTitleEnd(line, n + 4).value;
    var t := line[n + 4..j];
    forall k | 0 <= k < |t|
      ensures !IsLineTerminator(t[k]) && !OccursAt(line, "**", n + 4 + k)
    {
      assert t[k] == line[n + 4 + k];
    }
  }

  /** The lazy group stops at `j` when `**` is there and nothing before it stops it earlier. */
  lemma {:induction false} LazyTitleEndAt(s: string, i: nat, j: nat)
    requires i <= j && OccursAt(s, "**", j)
    requires forall k :: i <= k < j ==> !IsLineTerminator(s[k]) && !OccursAt(s, "**", k)
    ensures LazyTitleEnd(s, i) == Some(j)
    decreases j - i
  {
    if i < j {
      assert !OccursAt(s, "**", i);
      LazyTitleEndAt(s, i + 1, j);
    }
  }

  /** `\d+` from `i` consumes exactly the digits up to the first non-digit at `j`. */
  lemma {:induction false} DigitRunTo(s: string, i: nat, j: nat)
    requires i <= j < |s| && !IsDigit(s[j])
    requires forall k :: i <= k < j ==> IsDigit(s[k])
    ensures DigitRun(s, i) == j - i
    decreases j - i
  {
    if i < j {
      DigitRunTo(s, i + 1, j);
    }
  }

  /** In a line of the heading shape, the title's characters let the lazy group run on. */
  lemma TitleRunsToClose(line: string, n: nat, t: string)
    requires IsNumberedHeading(line, n, t)
    ensures forall k :: n + 4 <= k < n + 4 + |t| ==>
      !IsLineTerminator(line[k]) && !OccursAt(line, "**", k)
  {
    forall k | n + 4 <= k < n + 4 + |t|
      ensures !IsLineTerminator(line[k]) && !OccursAt(line, "**", k)
    {
      assert line[k] == line[n + 4..n + 4 + |t|][k - (n + 4)] == t[k - (n + 4)];
    }
  }

  /** Every line of the heading shape matches, with exactly that title. */
  lemma MatchNumberedHeadingComplete(line: string, n: nat, t: string)
    requires IsNumberedHeading(line, n, t)
    ensures MatchNumberedHeading(line) == Some(t)
  {
    assert !IsDigit(line[n]) by { assert line[n] == '.'; }
    DigitRunTo(line, 0, n);
    assert DigitRun(line, 0) == n;
    var j := n + 4 + |t|;
    assert OccursAt(line, "**", j) by { assert line[j..j + 2] == "**"; }
    TitleRunsToClose(line, n, t);
    LazyTitleEndAt(line, n + 4, j);
    assert line[n + 4..j] == t;
  }

  // ---------------------------------------------------------------------------------------
  // The line-by-line scan of `parsePromptsFromMarkdown`

  /** The loop variables: `currentCategory`, `currentPrompt` (the body collected so far),
      `currentTitle`, `promptCounter` and the prompts emitted so far. */
  datatype ScanState = ScanState(
    category: string,
    body: string,
    title: string,
    counter: nat,
    prompts: seq<ImagePrompt>)

  /** The variables before the first line. */
  const InitialScan: ScanState := ScanState("", "", "", 0, [])

  /** A trimmed line that is not empty and starts with neither `#` nor `**`. */
  predicate IsBodyText(line: string) {
    line != "" && !StartsWith(line, "#") && !StartsWith(line, "**")
  }

  /** Emits the pending prompt under the current category with the next index. */
  function Emit(st: ScanState): ScanState {
    st.(prompts := st.prompts + [CreateImagePrompt(st.category, st.title, st.body, st.counter)],
        counter := st.counter + 1)
  }

  /** One iteration of the loop, on the untrimmed line `raw`. */
  function ScanLine(st: ScanState, raw: string): ScanState {
    var line := Trim(raw);
    if IsCategoryHeader(line) then st.(category := HeaderCategory(line))
    else
      var m := MatchNumberedHeading(line);
      if m.Some? && st.category != "" then
        var flushed := if st.body != "" && st.title != "" then Emit(st) else st;
        flushed.(title := m.value, body := "")
      else if IsBodyText(line) && st.title != "" then
        st.(body := st.body + (if st.body != "" then " " else "") + line)
      else st
  }

  /** The loop over `lines`, one iteration per line in order. */
  function ScanLines(st: ScanState, lines: seq<string>): ScanState {
    if lines == [] then st
    else ScanLine(ScanLines(st, lines[..|lines| - 1]), lines[|lines| - 1])
  }

  /** After the loop: the last pending prompt is emitted if it has a title, a body and a category. */
  function Finish(st: ScanState): seq<ImagePrompt> {
    if st.body != "" && st.title != "" && st.category != "" then Emit(st).prompts else st.prompts
  }

  /** What `parsePromptsFromMarkdown(content)` returns. */
  function ParseMarkdown(content: string): seq<ImagePrompt> {
    Finish(ScanLines(InitialScan, Split(content, '\n')))
  }

  /** The prompt at position `k` of the output: it has a category, a title and a trimmed,
      non-empty text; its folder is the category's key; its id is `<folder>_<k>`; its file
      name is derived from its title and folder. */
  predicate WellFormedAt(p: ImagePrompt, k: nat) {
    && p.category != "" && p.title != "" && p.prompt != "" && IsTrimmed(p.prompt)
    && p.folder == CategoryKey(p.category)
    && p.id == p.folder + "_" + NatToDecimal(k)
    && p.filename == GenerateFilename(p.title, p.folder)
  }

  /** Every prompt of the list is well formed for its position: the indices run 0, 1, 2, ... */
  predicate WellFormedOutput(ps: seq<ImagePrompt>) {
    forall k :: 0 <= k < |ps| ==> WellFormedAt(ps[k], k)
  }

  /** What the loop keeps: the counter is the number of prompts emitted, these are well
      formed, and the body being collected is trimmed. */
  predicate ScanInvariant(st: ScanState) {
    st.counter == |st.prompts| && WellFormedOutput(st.prompts) && IsTrimmed(st.body)
  }

  /** Emitting a pending prompt with a title, a body and a category keeps the invariant. */
  lemma EmitPreserves(st: ScanState)
    requires ScanInvariant(st) && st.body != "" && st.title != "" && st.category != ""
    ensures ScanInvariant(Emit(st))
  {
    TrimOfTrimmed(st.body);
    var ps := Emit(st).prompts;
    assert WellFormedAt(ps[|ps| - 1], |ps| - 1);
  }

  /** Appending a non-empty trimmed line to a trimmed body, with a space between when the
      body is not empty, gives a trimmed body. */
  lemma AppendLineTrimmed(body: string, line: string)
    requires IsTrimmed(body) && IsTrimmed(line) && line != ""
    ensures IsTrimmed(body + (if body != "" then " " else "") + line)
  {
    var b := body + (if body != "" then " " else "") + line;
    assert b[|b| - 1] == line[|line| - 1];
    if body != "" {
      assert b[0] == body[0];
    } else {
      assert b == line;
    }
  }

  /** One iteration keeps the invariant. */
  lemma ScanLinePreserves(st: ScanState, raw: string)
    requires ScanInvariant(st)
    ensures ScanInvariant(ScanLine(st, raw))
  {
    var line := Trim(raw);
    TrimIsTrimmed(raw);
    if !IsCategoryHeader(line) {
      var m := MatchNumberedHeading(line);
      if m.Some? && st.category != "" {
        if st.body != "" && st.title != "" {
          EmitPreserves(st);
        }
      } else if IsBodyText(line) && st.title != "" {
        AppendLineTrimmed(st.body, line);
      }
    }
  }

  /** The whole loop keeps the invariant. */
  lemma {:induction false} ScanLinesPreserves(st: ScanState, lines: seq<string>)
    requires ScanInvariant(st)
    ensures ScanInvariant(ScanLines(st, lines))
  {
    if lines != [] {
      ScanLinesPreserves(st, lines[..|lines| - 1]);
      ScanLinePreserves(ScanLines(st, lines[..|lines| - 1]), lines[|lines| - 1]);
    }
  }

  /** Every parsed prompt is well formed: ids `<folder>_0`, `<folder>_1`, ... in emission
      order, non-empty titles and texts, folders and file names derived from the category
      and title. */
  lemma ParseMarkdownWellFormed(content: string)
    ensures WellFormedOutput(ParseMarkdown(content))
  {
    var st := ScanLines(InitialScan, Split(content, '\n'));
    ScanLinesPreserves(InitialScan, Split(content, '\n'));
    if st.body != "" && st.title != "" && st.category != "" {
      EmitPreserves(st);
    }
  }

  /** Parsed prompts have pairwise distinct ids. */
  lemma ParsedIdsDistinct(content: string)
    ensures var ps := ParseMarkdown(content);
      forall i, j :: 0 <= i < j < |ps| ==> ps[i].id != ps[j].id
  {
    var ps := ParseMarkdown(content);
    ParseMarkdownWellFormed(content);
    forall i, j | 0 <= i < j < |ps|
      ensures ps[i].id != ps[j].id
    {
      if ps[i].id == ps[j].id {
        assert WellFormedAt(ps[i], i) && WellFormedAt(ps[j], j);
        IdDeterminesFolderAndIndex(ps[i].folder, i, ps[j].folder, j);
      }
    }
  }

  /** `parsePromptsFromMarkdown(markdownContent)`. */
  method ParsePromptsFromMarkdown(markdownContent: string) returns (prompts: seq<ImagePrompt>)
    ensures prompts == ParseMarkdown(markdownContent)
    ensures WellFormedOutput(prompts)
  {
    prompts := [];
    var lines := Split(markdownContent, '\n');
    var currentCategory, currentPrompt, currentTitle := "", "", "";
    var promptCounter: nat := 0;
    for i := 0 to |lines|
      invariant ScanState(currentCategory, currentPrompt, currentTitle, promptCounter, prompts)
        == ScanLines(InitialScan, lines[..i])
    {
      ghost var before := ScanState(currentCategory, currentPrompt, currentTitle, promptCounter, prompts);
      assert lines[..i + 1][..i] == lines[..i];
      assert ScanLines(InitialScan, lines[..i + 1]) == ScanLine(before, lines[i]);
      var line := Trim(lines[i]);
      if StartsWith(line, "## ") && Includes(line, "Generation Prompts") {
        currentCategory := HeaderCategory(line);
        assert ScanLine(before, lines[i]) == before.(category := currentCategory);
        continue;
      }
      var promptMatch := MatchNumberedHeading(line);
      if promptMatch.Some? && currentCategory != "" {
        if currentPrompt != "" && currentTitle != "" {
          prompts := prompts + [CreateImagePrompt(currentCategory, currentTitle, currentPrompt, promptCounter)];
          promptCounter := promptCounter + 1;
        }
        currentTitle := promptMatch.value;
        currentPrompt := "";
        assert ScanLine(before, lines[i])
          == ScanState(currentCategory, currentPrompt, currentTitle, promptCounter, prompts);
        continue;
      }
      if line != "" && !StartsWith(line, "#") && !StartsWith(line, "**") && currentTitle != "" {
        currentPrompt := currentPrompt + (if currentPrompt != "" then " " else "") + line;
      }
      assert ScanLine(before, lines[i])
        == ScanState(currentCategory, currentPrompt, currentTitle, promptCounter, prompts);
    }
    assert lines[..|lines|] == lines;
    if currentPrompt != "" && currentTitle != "" && currentCategory != "" {
      prompts := prompts + [CreateImagePrompt(currentCategory, currentTitle, currentPrompt, promptCounter)];
      promptCounter := promptCounter + 1;
    }
    ParseMarkdownWellFormed(markdownContent);
  }

  // ---------------------------------------------------------------------------------------
  // Behaviour of the scan on particular lines

  /** The header line of a category as the catalogue writes it. */
  function HeaderLine(name: string): string {
    "## " + name + " Generation Prompts"
  }

  /** A header line written the catalogue's way is already trimmed and is recognised. */
  lemma HeaderLineRecognised(name: string)
    ensures Trim(HeaderLine(name)) == HeaderLine(name)
    ensures IsCategoryHeader(HeaderLine(name))
  {
    var line := HeaderLine(name);
    TrimOfTrimmed(line);
    assert OccursAt(line, "Generation Prompts", |name| + 4);
  }

  /** Removing the first `## ` of a header line removes its leading marker. */
  lemma StripHeaderMark(name: string)
    ensures ReplaceFirst(HeaderLine(name), "## ", "") == name + " Generation Prompts"
  {
    var line := HeaderLine(name);
    assert OccursAt(line, "## ", 0);
    assert IndexOf(line, "## ") == Some(0);
    assert line[3..] == name + " Generation Prompts";
  }

  /** The first ` Generation Prompts` of `name + " Generation Prompts"` is the one after
      `name`: the suffix does not already occur inside the name or across its end. */
  predicate SuffixFirstAfter(name: string) {
    IndexOf(name + " Generation Prompts", " Generation Prompts") == Some(|name|)
  }

  /** A name with no `G` has the suffix first after it, since every occurrence of the
      suffix has a `G` second. */
  lemma SuffixFirstAfterGFree(name: string)
    requires 'G' !in name
    ensures SuffixFirstAfter(name)
  {
    var pat := " Generation Prompts";
    var t := name + pat;
    assert OccursAt(t, pat, |name|);
    assert IndexOf(t, pat).Some?;
    var i := IndexOf(t, pat).value;
    assert OccursAt(t, pat, i) && i <= |name|;
    assert t[i + 1] == t[i..i + |pat|][1] == pat[1] == 'G';
    assert i == |name|;
  }

  /** When the suffix first occurs after `name`, removing its first occurrence leaves `name`. */
  lemma StripHeaderSuffix(name: string)
    requires SuffixFirstAfter(name)
    ensures ReplaceFirst(name + " Generation Prompts", " Generation Prompts", "") == name
  {
    var t := name + " Generation Prompts";
    assert t[..|name|] == name;
    assert t[|name| + 19..] == [];
  }

  /** A header line written the catalogue's way yields its name, when the name is trimmed
      and ` Generation Prompts` first occurs after it. */
  lemma StandardHeaderCategory(name: string)
    requires IsTrimmed(name) && SuffixFirstAfter(name)
    ensures HeaderCategory(HeaderLine(name)) == name
  {
    StripHeaderMark(name);
    StripHeaderSuffix(name);
    TrimOfTrimmed(name);
  }

  /** The header of each of the seven known categories yields that category. */
  lemma KnownCategoryHeader(name: string)
    requires IsKnownCategory(name)
    ensures HeaderCategory(HeaderLine(name)) == name
  {
    assert 'G' !in name && IsTrimmed(name);
    SuffixFirstAfterGFree(name);
    StandardHeaderCategory(name);
  }

  /** Before the first category header nothing is collected or emitted: numbered headings
      there are ignored. */
  lemma {:induction false} NothingBeforeFirstHeader(lines: seq<string>)
    requires forall k :: 0 <= k < |lines| ==> !IsCategoryHeader(Trim(lines[k]))
    ensures ScanLines(InitialScan, lines) == InitialScan
  {
    if lines != [] {
      NothingBeforeFirstHeader(lines[..|lines| - 1]);
    }
  }

  /** A line starting with `**`, or with `#` without being a category header, changes nothing. */
  lemma MarkupLineSkipped(st: ScanState, raw: string)
    requires StartsWith(Trim(raw), "**") || (StartsWith(Trim(raw), "#") && !IsCategoryHeader(Trim(raw)))
    ensures ScanLine(st, raw) == st
  {
    var line := Trim(raw);
    assert !IsDigit(line[0]);
    assert !IsCategoryHeader(line) by {
      if StartsWith(line, "**") { assert line[0] == '*'; }
    }
  }

  /** A numbered heading that had no text before the next one emits nothing. */
  lemma EmptyPromptDropped(st: ScanState, raw: string)
    requires st.body == "" && MatchNumberedHeading(Trim(raw)).Some?
    ensures ScanLine(st, raw).prompts == st.prompts
  {
    assert IsDigit(Trim(raw)[0]);
  }

  /** Any category header line sets the category to the name it carries and changes
      nothing else. */
  lemma CategoryHeaderSetsCategory(st: ScanState, raw: string)
    requires IsCategoryHeader(Trim(raw))
    ensures ScanLine(st, raw) == st.(category := HeaderCategory(Trim(raw)))
  {
  }

  /** A header line written the catalogue's way sets the category to its name. */
  lemma HeaderRelabels(st: ScanState, name: string)
    requires IsTrimmed(name) && SuffixFirstAfter(name)
    ensures ScanLine(st, HeaderLine(name)) == st.(category := name)
  {
    HeaderLineRecognised(name);
    CategoryHeaderSetsCategory(st, HeaderLine(name));
    StandardHeaderCategory(name);
  }

  /** A numbered heading under a category emits the pending prompt, if it has a title and
      a body, under the current category. */
  lemma HeadingFlushes(st: ScanState, heading: string)
    requires st.body != "" && st.title != "" && st.category != ""
    requires MatchNumberedHeading(Trim(heading)).Some?
    ensures ScanLine(st, heading).prompts
      == st.prompts + [CreateImagePrompt(st.category, st.title, st.body, st.counter)]
  {
    var line := Trim(heading);
    assert IsDigit(line[0]);
    assert !StartsWith(line, "## ");
    assert ScanLine(st, heading) == Emit(st).(title := MatchNumberedHeading(line).value, body := "");
  }

  /** A pending prompt is emitted when the next numbered heading arrives, under the category
      current at that moment: a category header in between relabels it. */
  lemma PendingPromptTakesNextCategory(st: ScanState, name: string, heading: string)
    requires st.body != "" && st.title != ""
    requires name != "" && IsTrimmed(name) && SuffixFirstAfter(name)
    requires MatchNumberedHeading(Trim(heading)).Some?
    ensures ScanLine(ScanLine(st, HeaderLine(name)), heading).prompts
      == st.prompts + [CreateImagePrompt(name, st.title, st.body, st.counter)]
  {
    HeaderRelabels(st, name);
    HeadingFlushes(st.(category := name), heading);
  }

  /** The trimmed lines. */
  function TrimEach(lines: seq<string>): (r: seq<string>)
    ensures |r| == |lines|
    ensures forall k :: 0 <= k < |r| ==> r[k] == Trim(lines[k])
  {
    if lines == [] then [] else TrimEach(lines[..|lines| - 1]) + [Trim(lines[|lines| - 1])]
  }

  /** A line that, once trimmed, is body text and neither a category header nor a numbered
      heading. */
  predicate IsPlainBodyLine(raw: string) {
    var line := Trim(raw);
    IsBodyText(line) && !IsCategoryHeader(line) && MatchNumberedHeading(line).None?
  }

  /** The text of a prompt is its body lines, trimmed and joined with single spaces. */
  lemma {:induction false} BodyIsJoinedLines(st: ScanState, lines: seq<string>)
    requires st.title != "" && st.body == "" && |lines| >= 1
    requires forall k :: 0 <= k < |lines| ==> IsPlainBodyLine(lines[k])
    ensures ScanLines(st, lines) == st.(body := Join(TrimEach(lines), ' '))
  {
    var init := lines[..|lines| - 1];
    var last := lines[|lines| - 1];
    assert IsPlainBodyLine(last);
    if init == [] {
      assert ScanLines(st, init) == st;
    } else {
      assert forall k :: 0 <= k < |init| ==> init[k] == lines[k];
      BodyIsJoinedLines(st, init);
      var pieces := TrimEach(lines);
      assert pieces[..|pieces| - 1] == TrimEach(init);
      assert IsPlainBodyLine(init[|init| - 1]);
    }
  }

  // ---------------------------------------------------------------------------------------
  // Grouping

  /** The prompts of category `c`, in their input order. */
  function OfCategory(prompts: seq<ImagePrompt>, c: string): (r: seq<ImagePrompt>)
    ensures forall i :: 0 <= i < |r| ==> r[i].category == c
    ensures forall k :: 0 <= k < |prompts| ==> (prompts[k] in r <==> prompts[k].category == c)
  {
    FilterComplete(prompts, (p: ImagePrompt) => p.category == c);
    Filter(prompts, (p: ImagePrompt) => p.category == c)
  }

  /** `prompts.map(p => p.category)`. */
  function CategoryList(prompts: seq<ImagePrompt>): (r: seq<string>)
    ensures |r| == |prompts| && forall k :: 0 <= k < |r| ==> r[k] == prompts[k].category
  {
    if prompts == [] then [] else CategoryList(prompts[..|prompts| - 1]) + [prompts[|prompts| - 1].category]
  }

  /** `getCategories(prompts)`: `Array.from(new Set(prompts.map(p => p.category)))`. */
  function GetCategories(prompts: seq<ImagePrompt>): (r: seq<string>)
    ensures Distinct(r)
    ensures forall i :: 0 <= i < |r| ==> exists k :: 0 <= k < |prompts| && prompts[k].category == r[i]
    ensures forall k :: 0 <= k < |prompts| ==> prompts[k].category in r
  {
    var cs := CategoryList(prompts);
    var r := DistinctInOrder(cs);
    assert forall i :: 0 <= i < |r| ==> exists k :: 0 <= k < |cs| && cs[k] == r[i];
    r
  }

  /** The categories come in the order of their first appearance among the prompts. */
  lemma GetCategoriesFirstAppearance(prompts: seq<ImagePrompt>)
    ensures var r := GetCategories(prompts);
      forall i, j :: 0 <= i < j < |r| ==>
        FirstIndex(CategoryList(prompts), r[i]) < FirstIndex(CategoryList(prompts), r[j])
  {
    DistinctInOrderIsFirstAppearanceOrder(CategoryList(prompts));
  }

  /** A category that no prompt has has an empty group. */
  lemma {:induction false} AbsentCategoryEmpty(prompts: seq<ImagePrompt>, c: string)
    requires forall k :: 0 <= k < |prompts| ==> prompts[k].category != c
    ensures OfCategory(prompts, c) == []
  {
    if prompts != [] {
      var init := prompts[..|prompts| - 1];
      AbsentCategoryEmpty(init, c);
      OfCategorySnoc(init, prompts[|prompts| - 1]);
      assert prompts == init + [prompts[|prompts| - 1]];
    }
  }

  /** The accumulator of the `reduce` in `getPromptsByCategory` after the prompts `ps`: each
      prompt is pushed onto the array of its category, which is created when missing. */
  function GroupMap(ps: seq<ImagePrompt>): map<string, seq<ImagePrompt>> {
    if ps == [] then map[]
    else
      var acc := GroupMap(ps[..|ps| - 1]);
      var p := ps[|ps| - 1];
      acc[p.category := (if p.category in acc then acc[p.category] else []) + [p]]
  }

  /** The accumulator has one key per category that occurs. */
  lemma {:induction false} GroupMapKeys(ps: seq<ImagePrompt>)
    ensures GroupMap(ps).Keys == set k | 0 <= k < |ps| :: ps[k].category
  {
    if ps != [] {
      var init := ps[..|ps| - 1];
      var p := ps[|ps| - 1];
      GroupMapKeys(init);
      assert forall k :: 0 <= k < |init| ==> ps[k] == init[k];
      assert (set k | 0 <= k < |ps| :: ps[k].category)
        == (set k | 0 <= k < |init| :: init[k].category) + {p.category};
    }
  }

  /** Under each key the accumulator holds that category's prompts in input order. */
  lemma {:induction false} GroupMapContents(ps: seq<ImagePrompt>)
    ensures forall c :: c in GroupMap(ps) ==> GroupMap(ps)[c] == OfCategory(ps, c)
  {
    if ps != [] {
      var init := ps[..|ps| - 1];
      var p := ps[|ps| - 1];
      assert ps == init + [p];
      GroupMapContents(init);
      GroupMapKeys(init);
      OfCategorySnoc(init, p);
      if p.category !in GroupMap(init) {
        AbsentCategoryEmpty(init, p.category);
      }
    }
  }

  /** `getPromptsByCategory(prompts)`: one group per category that occurs, holding that
      category's prompts in input order. */
  method GetPromptsByCategory(prompts: seq<ImagePrompt>) returns (groups: map<string, seq<ImagePrompt>>)
    ensures groups.Keys == set k | 0 <= k < |prompts| :: prompts[k].category
    ensures forall c :: c in groups ==> groups[c] == OfCategory(prompts, c)
  {
    groups := map[];
    for i := 0 to |prompts|
      invariant groups == GroupMap(prompts[..i])
    {
      var p := prompts[i];
      assert prompts[..i + 1][..i] == prompts[..i];
      if p.category !in groups {
        groups := groups[p.category := []];
      }
      groups := groups[p.category := groups[p.category] + [p]];
    }
    assert prompts[..|prompts|] == prompts;
    GroupMapKeys(prompts);
    GroupMapContents(prompts);
  }

  /** One more prompt joins exactly the group of its own category, at its end. */
  lemma OfCategorySnoc(prompts: seq<ImagePrompt>, p: ImagePrompt)
    ensures forall c ::
      OfCategory(prompts + [p], c) == OfCategory(prompts, c) + (if p.category == c then [p] else [])
  {
    var s := prompts + [p];
    assert s[..|s| - 1] == prompts;
  }

  /** The sizes of the groups of `cats`, added up. */
  function GroupSizes(prompts: seq<ImagePrompt>, cats: seq<string>): nat {
    if cats == [] then 0
    else GroupSizes(prompts, cats[..|cats| - 1]) + |OfCategory(prompts, cats[|cats| - 1])|
  }

  /** Adding a prompt adds one to the group sizes of distinct categories when its category
      is one of them. */
  lemma {:induction false} GroupSizesSnoc(prompts: seq<ImagePrompt>, p: ImagePrompt, cats: seq<string>)
    requires Distinct(cats)
    ensures GroupSizes(prompts + [p], cats)
      == GroupSizes(prompts, cats) + (if p.category in cats then 1 else 0)
  {
    if cats != [] {
      var init := cats[..|cats| - 1];
      GroupSizesSnoc(prompts, p, init);
      OfCategorySnoc(prompts, p);
      assert cats == init + [cats[|cats| - 1]];
    }
  }

  /** One more prompt adds its category at the end of the categories, unless already there. */
  lemma GetCategoriesSnoc(init: seq<ImagePrompt>, p: ImagePrompt)
    ensures GetCategories(init + [p]) == if p.category in GetCategories(init)
      then GetCategories(init) else GetCategories(init) + [p.category]
  {
    var ps := init + [p];
    assert ps[..|ps| - 1] == init;
    assert CategoryList(ps) == CategoryList(init) + [p.category];
    assert CategoryList(ps)[..|ps| - 1] == CategoryList(init);
  }

  /** The groups partition the prompts: their sizes, over the distinct categories, add up
      to the number of prompts. */
  lemma {:induction false} GroupSizesPartition(prompts: seq<ImagePrompt>)
    ensures GroupSizes(prompts, GetCategories(prompts)) == |prompts|
  {
    if prompts != [] {
      var init := prompts[..|prompts| - 1];
      var p := prompts[|prompts| - 1];
      assert prompts == init + [p];
      GroupSizesPartition(init);
      var d := GetCategories(init);
      GetCategoriesSnoc(init, p);
      GroupSizesSnoc(init, p, d);
      if p.category !in d {
        var r := d + [p.category];
        assert r[..|r| - 1] == d;
        OfCategorySnoc(init, p);
        AbsentCategoryEmpty(init, p.category);
      }
    }
  }
}
