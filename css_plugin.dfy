/**
 * The editing helpers of the style-sheet editor plugin (sources/CSSPlugin.js):
 * the numeric-unit increment, the bounded backtracking to the property name
 * before a `:`, the value suggestions, the swatch scan of changed lines and the
 * flags that mute swatch processing and undo a cancelled swatch edit.
 *
 * The text editor is reduced to its lines, its selection, its swatch
 * bookmarks and a count of undo calls. Its tokenizer, the regular-expression
 * splitter, the colour and bezier parsers and the CSS metadata are parameters.
 * Columns index characters.
 */
module CssEditing {
  import opened Wrappers
  import opened JsString

  // ----- _modifyUnit -----

  /** Whether `parseInt(s, 10)` finds digits: after the white space and an optional sign comes a digit. */
  predicate HasLeadingInteger(s: string) {
    var start := DigitsStart(s, WhiteSpaceRun(s));
    start < |s| && IsDigit(s[start])
  }

  /**
   * `_modifyUnit` as written: the unchanged tail is taken to start after as
   * many characters as the decimal rendering of the parsed value has, which is
   * not where the digits end when the number has a `+` sign, leading zeros or
   * leading white space. A `-` sign is counted by the rendering too, except on
   * a zero value: JavaScript renders `-0` as `0`, so `-0px` plus one gives `10px`.
   */
  function ModifyUnitAsWritten(unit: string, change: int): (r: Option<string>)
    ensures r.None? <==> !HasLeadingInteger(unit)
  {
    match ParseInt(unit)
    case None => None
    case Some(parsed) => Some(IntToDecimal(parsed.value + change) + SubstringFrom(unit, |IntToDecimal(parsed.value)|))
  }

  /** `_modifyUnit` as intended: the tail is whatever follows the parsed digits. */
  function ModifyUnit(unit: string, change: int): (r: Option<string>)
    ensures r.None? <==> !HasLeadingInteger(unit)
  {
    match ParseInt(unit)
    case None => None
    case Some(parsed) => Some(IntToDecimal(parsed.value + change) + unit[parsed.end..])
  }

  /**
   * On a canonical number (no sign, white space or leading zero) followed by a
   * tail that does not start with a digit, the changed number is followed by
   * the same tail.
   */
  lemma ModifyUnitCanonical(n: int, tail: string, change: int)
    requires tail != [] ==> !IsDigit(tail[0])
    ensures ModifyUnit(IntToDecimal(n) + tail, change) == Some(IntToDecimal(n + change) + tail)
  {
    ParseIntCanonical(n, tail);
    assert (IntToDecimal(n) + tail)[|IntToDecimal(n)|..] == tail;
  }

  /** On a canonical number the written version agrees with the intended one. */
  lemma ModifyUnitAsWrittenCanonical(n: int, tail: string, change: int)
    requires tail != [] ==> !IsDigit(tail[0])
    ensures ModifyUnitAsWritten(IntToDecimal(n) + tail, change) == Some(IntToDecimal(n + change) + tail)
  {
    ParseIntCanonical(n, tail);
    assert SubstringFrom(IntToDecimal(n) + tail, |IntToDecimal(n)|) == tail;
  }

  /** Changing a canonical unit by `change` and then by `-change` gives the unit back. */
  lemma ModifyUnitInverse(n: int, tail: string, change: int)
    requires tail != [] ==> !IsDigit(tail[0])
    ensures ModifyUnit(IntToDecimal(n) + tail, change).Some?
    ensures ModifyUnit(ModifyUnit(IntToDecimal(n) + tail, change).value, -change) == Some(IntToDecimal(n) + tail)
  {
    ModifyUnitCanonical(n, tail, change);
    ModifyUnitBack(n, tail, change);
  }

  /** The way back of `ModifyUnitInverse`: the changed unit changed by `-change`. */
  lemma ModifyUnitBack(n: int, tail: string, change: int)
    requires tail != [] ==> !IsDigit(tail[0])
    ensures ModifyUnit(IntToDecimal(n + change) + tail, -change) == Some(IntToDecimal(n) + tail)
  {
    ModifyUnitCanonical(n + change, tail, -change);
    assert n + change + -change == n;
  }

  /** `parseInt("007px")` reads the three digits and gives 7. */
  lemma ParseLeadingZeros()
    ensures ParseInt("007px") == Some(ParsedInt(7, 3))
  {
    var s := "007px";
    assert WhiteSpaceRun(s) == 0;
    assert s[0..] == s;
    assert LeadingDigits(s) == "007" by {
      LeadingDigitsOf("007", "px");
      assert "007" + "px" == s;
    }
    assert "007"[..2] == "00" && "00"[..1] == "0" && "0"[..0] == "";
    assert DigitsValue("0") == 0;
    assert DigitsValue("00") == 0;
    assert DigitsValue("007") == 7;
  }

  /** With leading zeros the written version duplicates digits: `007px` plus one gives `807px`, not `8px`. */
  lemma ModifyUnitLeadingZeros()
    ensures ModifyUnitAsWritten("007px", 1) == Some("807px")
    ensures ModifyUnit("007px", 1) == Some("8px")
  {
    var s := "007px";
    ParseLeadingZeros();
    assert IntToDecimal(7) == "7" && IntToDecimal(8) == "8";
    assert SubstringFrom(s, 1) == "07px" && s[3..] == "px";
    assert "8" + "07px" == "807px" && "8" + "px" == "8px";
  }

  /** `parseInt("-0px")` reads the sign and one digit; its value renders as `0`, one character short. */
  lemma ModifyUnitNegativeZero()
    ensures ModifyUnitAsWritten("-0px", 1) == Some("10px")
    ensures ModifyUnit("-0px", 1) == Some("1px")
  {
    var s := "-0px";
    assert WhiteSpaceRun(s) == 0;
    assert ParseInt(s) == Some(ParsedInt(0, 2)) by {
      assert s[1..] == "0px";
      assert LeadingDigits(s[1..]) == "0" by {
        LeadingDigitsOf("0", "px");
        assert "0" + "px" == s[1..];
      }
      assert "0"[..0] == "";
      assert DigitsValue("0") == 0;
    }
    assert IntToDecimal(0) == "0" && IntToDecimal(1) == "1";
    assert SubstringFrom(s, 1) == "0px" && s[2..] == "px";
    assert "1" + "0px" == "10px" && "1" + "px" == "1px";
  }

  // ----- Text ranges, tokens and swatches -----

  datatype TextRange = TextRange(startLine: int, startColumn: int, endLine: int, endColumn: int)

  /** `TextRange.normalize`: the same range with its start before its end. */
  function Normalize(r: TextRange): (n: TextRange)
    ensures n.startLine < n.endLine || (n.startLine == n.endLine && n.startColumn <= n.endColumn)
    ensures n == r || n == TextRange(r.endLine, r.endColumn, r.startLine, r.startColumn)
  {
    if r.startLine > r.endLine || (r.startLine == r.endLine && r.startColumn > r.endColumn)
    then TextRange(r.endLine, r.endColumn, r.startLine, r.startColumn)
    else r
  }

  /** A token of the editor's tokenizer; an untyped token has type `""`. */
  datatype Token = Token(startColumn: int, endColumn: int, tokenType: string)

  /** `tokenAtTextPosition(line, column)`. */
  type Tokenizer = (int, int) -> Option<Token>

  datatype SwatchKind = ColorSwatch | BezierSwatch

  /** A swatch bookmark: its kind, its text and the position it is anchored at. */
  datatype Swatch = Swatch(kind: SwatchKind, text: string, line: int, column: int)

  /** One piece of `splitStringByRegexes`: its text, its position and the index of the matching regex (-1 for none). */
  datatype RegexMatch = RegexMatch(value: string, position: int, regexIndex: int)

  /** The editor's line `i`, or the empty string outside the text. */
  function LineAt(lines: seq<string>, i: int): string {
    if 0 <= i < |lines| then lines[i] else ""
  }

  /** The text of a range on one line. */
  function RangeText(lines: seq<string>, line: int, startColumn: int, endColumn: int): string {
    Substring(LineAt(lines, line), startColumn, endColumn)
  }

  /** `editRange` of a range on one line: the text between the two columns is replaced. */
  function ReplaceInLine(lines: seq<string>, line: int, startColumn: int, endColumn: int, text: string): (r: seq<string>)
    ensures |r| == |lines|
    ensures forall i :: 0 <= i < |lines| && i != line ==> r[i] == lines[i]
    ensures 0 <= line < |lines| && 0 <= startColumn <= endColumn <= |lines[line]| ==>
      r[line] == lines[line][..startColumn] + text + lines[line][endColumn..]
  {
    if 0 <= line < |lines|
    then lines[line := Substring(lines[line], 0, startColumn) + text + SubstringFrom(lines[line], endColumn)]
    else lines
  }

  // ----- _handleUnitModification -----

  /** The token under the selection start, or the one just before it. */
  function TokenForSelection(selection: TextRange, tokenAt: Tokenizer): Option<Token> {
    match tokenAt(selection.startLine, selection.startColumn)
    case Some(token) => Some(token)
    case None =>
      if selection.startColumn > 0 then tokenAt(selection.startLine, selection.startColumn - 1) else None
  }

  /** The edit a unit modification makes: on `line`, the columns of the number token, and the new text. */
  datatype UnitEdit = UnitEdit(line: int, startColumn: int, endColumn: int, newText: string)

  /**
   * The edit `_handleUnitModification` performs, if any: there must be a
   * `css-number` token under (or just before) the normalized selection start,
   * and its text must have a leading integer.
   */
  function PlanUnitModification(lines: seq<string>, selection: TextRange, change: int, tokenAt: Tokenizer): (r: Option<UnitEdit>)
    ensures var sel := Normalize(selection); var token := TokenForSelection(sel, tokenAt);
      r.Some? <==> token.Some? && token.value.tokenType == "css-number" &&
                   HasLeadingInteger(RangeText(lines, sel.startLine, token.value.startColumn, token.value.endColumn))
    ensures r.Some? ==> var sel := Normalize(selection); var token := TokenForSelection(sel, tokenAt).value;
      r.value.line == sel.startLine && r.value.startColumn == token.startColumn && r.value.endColumn == token.endColumn &&
      Some(r.value.newText) == ModifyUnitAsWritten(RangeText(lines, sel.startLine, token.startColumn, token.endColumn), change)
  {
    var sel := Normalize(selection);
    match TokenForSelection(sel, tokenAt)
    case None => None
    case Some(token) =>
      if token.tokenType != "css-number" then None
      else
        match ModifyUnitAsWritten(RangeText(lines, sel.startLine, token.startColumn, token.endColumn), change)
        case None => None
        case Some(newText) => Some(UnitEdit(sel.startLine, token.startColumn, token.endColumn, newText))
  }

  /** On a canonical number token the edit writes the changed number and keeps the unit. */
  lemma UnitModificationOfCanonical(lines: seq<string>, selection: TextRange, change: int, tokenAt: Tokenizer, n: int, unit: string)
    requires var sel := Normalize(selection); var token := TokenForSelection(sel, tokenAt);
      token.Some? && token.value.tokenType == "css-number" &&
      RangeText(lines, sel.startLine, token.value.startColumn, token.value.endColumn) == IntToDecimal(n) + unit
    requires unit != [] ==> !IsDigit(unit[0])
    ensures var r := PlanUnitModification(lines, selection, change, tokenAt);
      r.Some? && r.value.newText == IntToDecimal(n + change) + unit
  {
    ModifyUnitAsWrittenCanonical(n, unit, change);
  }

  /** On the token `007px`, incrementing writes `807px` and selects its five columns. */
  lemma UnitModificationLeadingZeros(lines: seq<string>, selection: TextRange, tokenAt: Tokenizer)
    requires var sel := Normalize(selection); var token := TokenForSelection(sel, tokenAt);
      token.Some? && token.value.tokenType == "css-number" &&
      RangeText(lines, sel.startLine, token.value.startColumn, token.value.endColumn) == "007px"
    ensures var r := PlanUnitModification(lines, selection, 1, tokenAt);
      r.Some? && r.value.newText == "807px" && |r.value.newText| == 5
  {
    ModifyUnitLeadingZeros();
  }

  // ----- _backtrackPropertyToken -----

  /** At most this many tokens are inspected. */
  const BacktrackDepth: nat := 10

  predicate IsPropertyToken(t: Token) {
    t.tokenType == "css-property"
  }

  /** An untyped, white-space or comment token, over which the backtracking continues. */
  predicate IsSkippable(t: Token) {
    t.tokenType == "" || Contains(t.tokenType, "whitespace") || StartsWith(t.tokenType, "css-comment")
  }

  /** A token the backtracking moves past: skippable and not the property name. */
  predicate PassesOver(t: Token) {
    !IsPropertyToken(t) && IsSkippable(t)
  }

  predicate IsColon(line: string, t: Token) {
    t.tokenType == "" && Substring(line, t.startColumn, t.endColumn) == ":"
  }

  /**
   * The backtracking from `position` with `steps` tokens left to inspect,
   * `seenColon` telling whether a colon was passed already.
   */
  function Scan(line: string, tokenAt: Tokenizer, lineNumber: int, position: int, seenColon: bool, steps: nat): Option<Token>
    decreases steps
  {
    if steps == 0 || position < 0 then None
    else match tokenAt(lineNumber, position)
      case None => None
      case Some(t) =>
        if IsPropertyToken(t) then (if seenColon then Some(t) else None)
        else if !IsSkippable(t) then None
        else if IsColon(line, t) && seenColon then None
        else Scan(line, tokenAt, lineNumber, t.startColumn - 1, seenColon || IsColon(line, t), steps - 1)
  }

  /** The result of `_backtrackPropertyToken(lineNumber, columnNumber)`. */
  function Backtrack(line: string, tokenAt: Tokenizer, lineNumber: int, columnNumber: int): Option<Token> {
    Scan(line, tokenAt, lineNumber, columnNumber, false, BacktrackDepth)
  }

  /**
   * The chain of tokens the backtracking walks through when nothing stops it:
   * each next token is the one just before the previous token's start, for at
   * most `steps` tokens and while the position is not negative.
   */
  function Walk(tokenAt: Tokenizer, lineNumber: int, position: int, steps: nat): (w: seq<Token>)
    ensures |w| <= steps
    ensures position < 0 ==> w == []
    decreases steps
  {
    if steps == 0 || position < 0 then []
    else match tokenAt(lineNumber, position)
      case None => []
      case Some(t) => [t] + Walk(tokenAt, lineNumber, t.startColumn - 1, steps - 1)
  }

  /** The number of leading tokens of `w` the backtracking moves past. */
  function LeadingSkippable(w: seq<Token>): (k: nat)
    ensures k <= |w|
  {
    if w != [] && PassesOver(w[0]) then 1 + LeadingSkippable(w[1..]) else 0
  }

  /** The tokens counted are all moved past, and the one after them (if any) is not. */
  lemma {:induction false} LeadingSkippableSpan(w: seq<Token>)
    ensures var k := LeadingSkippable(w);
      (forall j :: 0 <= j < k ==> PassesOver(w[j])) && (k < |w| ==> !PassesOver(w[k]))
  {
    if w != [] && PassesOver(w[0]) {
      LeadingSkippableSpan(w[1..]);
    }
  }

  function ColonCount(line: string, w: seq<Token>): nat {
    if w == [] then 0 else (if IsColon(line, w[0]) then 1 else 0) + ColonCount(line, w[1..])
  }

  /**
   * The backtracking stops at the first token of the walk it does not move
   * past; it returns that token exactly when it is a property token and
   * exactly one colon (counting one already passed) came before it.
   */
  function WalkResult(line: string, w: seq<Token>, seenColon: bool): Option<Token> {
    var k := LeadingSkippable(w);
    if k < |w| && IsPropertyToken(w[k]) && ColonCount(line, w[..k]) + (if seenColon then 1 else 0) == 1
    then Some(w[k]) else None
  }

  /** One step of the walk over a skippable token that does not end the backtracking early. */
  lemma WalkStep(line: string, t: Token, rest: seq<Token>, seenColon: bool)
    requires PassesOver(t) && !(IsColon(line, t) && seenColon)
    ensures WalkResult(line, [t] + rest, seenColon) == WalkResult(line, rest, seenColon || IsColon(line, t))
  {
    var w := [t] + rest;
    assert w[1..] == rest;
    var k := LeadingSkippable(rest);
    assert LeadingSkippable(w) == 1 + k;
    assert w[..1 + k][1..] == rest[..k];
    assert ColonCount(line, w[..1 + k]) == (if IsColon(line, t) then 1 else 0) + ColonCount(line, rest[..k]);
  }

  /** The walk stops at a token that is not skippable, or at a colon after a colon. */
  lemma WalkStop(line: string, t: Token, rest: seq<Token>, seenColon: bool)
    requires IsPropertyToken(t) || !IsSkippable(t) || (IsColon(line, t) && seenColon)
    ensures WalkResult(line, [t] + rest, seenColon) ==
      if IsPropertyToken(t) && seenColon then Some(t) else None
  {
    var w := [t] + rest;
    assert w[1..] == rest;
    if IsPropertyToken(t) || !IsSkippable(t) {
      assert LeadingSkippable(w) == 0;
      assert ColonCount(line, w[..0]) == 0;
    } else {
      var k := LeadingSkippable(rest);
      assert LeadingSkippable(w) == 1 + k;
      assert w[..1 + k][1..] == rest[..k];
      assert ColonCount(line, w[..1 + k]) == 1 + ColonCount(line, rest[..k]);
    }
  }

  lemma {:induction false} ScanByWalk(line: string, tokenAt: Tokenizer, lineNumber: int, position: int, seenColon: bool, steps: nat)
    ensures Scan(line, tokenAt, lineNumber, position, seenColon, steps) ==
      WalkResult(line, Walk(tokenAt, lineNumber, position, steps), seenColon)
    decreases steps
  {
    if steps > 0 && position >= 0 {
      match tokenAt(lineNumber, position)
      case None =>
      case Some(t) =>
        var rest := Walk(tokenAt, lineNumber, t.startColumn - 1, steps - 1);
        assert Walk(tokenAt, lineNumber, position, steps) == [t] + rest;
        if IsPropertyToken(t) || !IsSkippable(t) || (IsColon(line, t) && seenColon) {
          WalkStop(line, t, rest, seenColon);
        } else {
          WalkStep(line, t, rest, seenColon);
          ScanByWalk(line, tokenAt, lineNumber, t.startColumn - 1, seenColon || IsColon(line, t), steps - 1);
        }
    }
  }

  /**
   * `_backtrackPropertyToken` returns only a property token, and only one
   * reached over skippable tokens exactly one of which is a colon.
   */
  lemma BacktrackResult(line: string, tokenAt: Tokenizer, lineNumber: int, columnNumber: int)
    ensures var r := Backtrack(line, tokenAt, lineNumber, columnNumber);
      var w := Walk(tokenAt, lineNumber, columnNumber, BacktrackDepth);
      var k := LeadingSkippable(w);
      (r.Some? <==> k < |w| && IsPropertyToken(w[k]) && ColonCount(line, w[..k]) == 1) &&
      (r.Some? ==> r.value == w[k] && IsPropertyToken(r.value) && k < BacktrackDepth) &&
      (forall j :: 0 <= j < k ==> PassesOver(w[j]))
  {
    ScanByWalk(line, tokenAt, lineNumber, columnNumber, false, BacktrackDepth);
    LeadingSkippableSpan(Walk(tokenAt, lineNumber, columnNumber, BacktrackDepth));
  }

  /** A negative start column finds nothing. */
  lemma BacktrackNegativeColumn(line: string, tokenAt: Tokenizer, lineNumber: int, columnNumber: int)
    requires columnNumber < 0
    ensures Backtrack(line, tokenAt, lineNumber, columnNumber).None?
  {
  }

  // ----- _cssSuggestions -----

  function FilterByPrefix(values: seq<string>, prefix: string): (r: seq<string>)
    ensures |r| <= |values|
  {
    if values == [] then []
    else (if StartsWith(values[0], prefix) then [values[0]] else []) + FilterByPrefix(values[1..], prefix)
  }

  /** The filter keeps exactly the values that start with the prefix. */
  lemma {:induction false} FilterByPrefixMembers(values: seq<string>, prefix: string)
    ensures forall v :: v in FilterByPrefix(values, prefix) <==> v in values && StartsWith(v, prefix)
  {
    if values != [] {
      FilterByPrefixMembers(values[1..], prefix);
      assert values == [values[0]] + values[1..];
    }
  }

  /** The filter keeps every matching value as often as it occurs, and no other. */
  lemma {:induction false} FilterByPrefixCounts(values: seq<string>, prefix: string, v: string)
    ensures multiset(FilterByPrefix(values, prefix))[v] == if StartsWith(v, prefix) then multiset(values)[v] else 0
  {
    if values != [] {
      FilterByPrefixCounts(values[1..], prefix, v);
      assert values == [values[0]] + values[1..];
    }
  }

  /**
   * The suggestions for the word in `prefixRange` (which lies on one line):
   * none for a `$`-prefixed word or when no property name precedes it,
   * otherwise the property's values that start with the word.
   */
  function Suggestions(lines: seq<string>, prefixRange: TextRange, tokenAt: Tokenizer, propertyValues: string -> seq<string>): Option<seq<string>>
  {
    var prefix := RangeText(lines, prefixRange.startLine, prefixRange.startColumn, prefixRange.endColumn);
    if StartsWith(prefix, "$") then None
    else
      match Backtrack(LineAt(lines, prefixRange.startLine), tokenAt, prefixRange.startLine, prefixRange.startColumn - 1)
      case None => None
      case Some(property) =>
        Some(FilterByPrefix(propertyValues(RangeText(lines, prefixRange.startLine, property.startColumn, property.endColumn)), prefix))
  }

  /**
   * There are suggestions exactly when the word is not `$`-prefixed and a
   * property name precedes it, and then they are the property's values that
   * start with the word.
   */
  lemma SuggestionsMeaning(lines: seq<string>, prefixRange: TextRange, tokenAt: Tokenizer, propertyValues: string -> seq<string>)
    ensures var r := Suggestions(lines, prefixRange, tokenAt, propertyValues);
      var prefix := RangeText(lines, prefixRange.startLine, prefixRange.startColumn, prefixRange.endColumn);
      var property := Backtrack(LineAt(lines, prefixRange.startLine), tokenAt, prefixRange.startLine, prefixRange.startColumn - 1);
      (r.Some? <==> !StartsWith(prefix, "$") && property.Some?) &&
      (r.Some? ==> forall v :: v in r.value <==>
        v in propertyValues(RangeText(lines, prefixRange.startLine, property.value.startColumn, property.value.endColumn)) &&
        StartsWith(v, prefix))
  {
    var prefix := RangeText(lines, prefixRange.startLine, prefixRange.startColumn, prefixRange.endColumn);
    var property := Backtrack(LineAt(lines, prefixRange.startLine), tokenAt, prefixRange.startLine, prefixRange.startColumn - 1);
    var r := Suggestions(lines, prefixRange, tokenAt, propertyValues);
    if StartsWith(prefix, "$") || property.None? {
      assert r.None?;
    } else {
      var values := propertyValues(RangeText(lines, prefixRange.startLine, property.value.startColumn, property.value.endColumn));
      assert r == Some(FilterByPrefix(values, prefix));
      FilterByPrefixMembers(values, prefix);
    }
  }

  // ----- _updateSwatches -----

  /** Lines are scanned for swatches up to this many characters. */
  const MaxSwatchProcessingLength: nat := 300

  /** The class `[\s:;,(){}]`. */
  predicate IsDelimiter(c: char) {
    IsWhiteSpace(c) || c == ':' || c == ';' || c == ',' || c == '(' || c == ')' || c == '{' || c == '}'
  }

  /** `delimiters.test(line.charAt(i))`: false outside the line, where `charAt` gives the empty string. */
  predicate DelimiterAt(line: string, i: int) {
    match CharAt(line, i)
    case None => false
    case Some(c) => IsDelimiter(c)
  }

  /**
   * A match is delimited when the character before it is a delimiter or it
   * starts the line, and the character after it is a delimiter or it ends the line.
   */
  predicate Delimited(line: string, position: int, length: nat) {
    (position - 1 < 0 || DelimiterAt(line, position - 1)) &&
    (position + length >= |line| || DelimiterAt(line, position + length))
  }

  /** The part of a line the scan looks at. */
  function ScannedLine(lines: seq<string>, lineNumber: int): (r: string)
    ensures |r| <= MaxSwatchProcessingLength
  {
    Substring(LineAt(lines, lineNumber), 0, MaxSwatchProcessingLength)
  }

  /** The scanned part of a line is a prefix of it of at most 300 characters. */
  lemma ScannedLinePrefix(lines: seq<string>, lineNumber: int)
    ensures var r := ScannedLine(lines, lineNumber);
      |r| <= |LineAt(lines, lineNumber)| && r == LineAt(lines, lineNumber)[..|r|]
  {
  }

  /**
   * The swatch a piece of the split line becomes, if any: only the bezier
   * (index 2) and colour (index 3) regexes have handlers, the piece must be
   * delimited, and the handler's parser must accept it.
   */
  function SwatchFor(line: string, lineNumber: int, m: RegexMatch, parsesColor: string -> bool, parsesBezier: string -> bool): Option<Swatch> {
    if m.regexIndex != 2 && m.regexIndex != 3 then None
    else if !Delimited(line, m.position, |m.value|) then None
    else if m.regexIndex == 3 then
      (if parsesColor(m.value) then Some(Swatch(ColorSwatch, m.value, lineNumber, m.position)) else None)
    else
      (if parsesBezier(m.value) then Some(Swatch(BezierSwatch, m.value, lineNumber, m.position)) else None)
  }

  /** The swatches of the first `n` pieces, in order. */
  function LineSwatches(line: string, lineNumber: int, pieces: seq<RegexMatch>, n: nat, parsesColor: string -> bool, parsesBezier: string -> bool): seq<Swatch>
    requires n <= |pieces|
  {
    if n == 0 then []
    else
      var s := SwatchFor(line, lineNumber, pieces[n - 1], parsesColor, parsesBezier);
      LineSwatches(line, lineNumber, pieces, n - 1, parsesColor, parsesBezier) + (if s.Some? then [s.value] else [])
  }

  /** The swatches of `count` lines starting at `startLine`, in order. */
  function SwatchesInLines(lines: seq<string>, startLine: int, count: nat, split: string -> seq<RegexMatch>, parsesColor: string -> bool, parsesBezier: string -> bool): seq<Swatch>
  {
    if count == 0 then []
    else
      var lineNumber := startLine + count - 1;
      var line := ScannedLine(lines, lineNumber);
      SwatchesInLines(lines, startLine, count - 1, split, parsesColor, parsesBezier) +
      LineSwatches(line, lineNumber, split(line), |split(line)|, parsesColor, parsesBezier)
  }

  /** One more line scanned appends that line's swatches. */
  lemma SwatchesInLinesStep(
    lines: seq<string>, startLine: int, lineNumber: int, split: string -> seq<RegexMatch>, parsesColor: string -> bool, parsesBezier: string -> bool,
    before: seq<Swatch>, found: seq<Swatch>)
    requires startLine <= lineNumber
    requires before == SwatchesInLines(lines, startLine, lineNumber - startLine, split, parsesColor, parsesBezier)
    requires var line := ScannedLine(lines, lineNumber);
      found == LineSwatches(line, lineNumber, split(line), |split(line)|, parsesColor, parsesBezier)
    ensures before + found == SwatchesInLines(lines, startLine, lineNumber + 1 - startLine, split, parsesColor, parsesBezier)
  {
  }

  /** Whether a swatch is an acceptable one for its line: delimited, of a kind its parser accepts. */
  predicate SwatchSound(lines: seq<string>, s: Swatch, parsesColor: string -> bool, parsesBezier: string -> bool) {
    Delimited(ScannedLine(lines, s.line), s.column, |s.text|) &&
    (if s.kind == ColorSwatch then parsesColor(s.text) else parsesBezier(s.text))
  }

  /** A swatch is found on a line exactly when some piece of the split line yields it. */
  lemma {:induction false} LineSwatchesExact(line: string, lineNumber: int, pieces: seq<RegexMatch>, n: nat, parsesColor: string -> bool, parsesBezier: string -> bool, s: Swatch)
    requires n <= |pieces|
    ensures s in LineSwatches(line, lineNumber, pieces, n, parsesColor, parsesBezier) <==>
      exists i :: 0 <= i < n && SwatchFor(line, lineNumber, pieces[i], parsesColor, parsesBezier) == Some(s)
  {
    if n > 0 {
      LineSwatchesExact(line, lineNumber, pieces, n - 1, parsesColor, parsesBezier, s);
      if SwatchFor(line, lineNumber, pieces[n - 1], parsesColor, parsesBezier) == Some(s) {
        assert s in LineSwatches(line, lineNumber, pieces, n, parsesColor, parsesBezier);
      }
    }
  }

  /** A swatch a piece of a scanned line yields lies on that line and is sound there. */
  lemma SwatchForSound(lines: seq<string>, lineNumber: int, m: RegexMatch, parsesColor: string -> bool, parsesBezier: string -> bool)
    requires SwatchFor(ScannedLine(lines, lineNumber), lineNumber, m, parsesColor, parsesBezier).Some?
    ensures var s := SwatchFor(ScannedLine(lines, lineNumber), lineNumber, m, parsesColor, parsesBezier).value;
      s.line == lineNumber && SwatchSound(lines, s, parsesColor, parsesBezier)
  {
  }

  /** Every swatch found on one scanned line lies on it and is sound there. */
  lemma {:induction false} LineSwatchesSound(lines: seq<string>, lineNumber: int, pieces: seq<RegexMatch>, n: nat, parsesColor: string -> bool, parsesBezier: string -> bool)
    requires n <= |pieces|
    ensures forall s :: s in LineSwatches(ScannedLine(lines, lineNumber), lineNumber, pieces, n, parsesColor, parsesBezier) ==>
      s.line == lineNumber && SwatchSound(lines, s, parsesColor, parsesBezier)
  {
    if n > 0 {
      LineSwatchesSound(lines, lineNumber, pieces, n - 1, parsesColor, parsesBezier);
      if SwatchFor(ScannedLine(lines, lineNumber), lineNumber, pieces[n - 1], parsesColor, parsesBezier).Some? {
        SwatchForSound(lines, lineNumber, pieces[n - 1], parsesColor, parsesBezier);
      }
    }
  }

  /** Every swatch the scan of `count` lines finds lies on one of them and is sound there. */
  lemma {:induction false} SwatchesInLinesSound(lines: seq<string>, startLine: int, count: nat, split: string -> seq<RegexMatch>, parsesColor: string -> bool, parsesBezier: string -> bool)
    ensures forall s :: s in SwatchesInLines(lines, startLine, count, split, parsesColor, parsesBezier) ==>
      startLine <= s.line < startLine + count && SwatchSound(lines, s, parsesColor, parsesBezier)
  {
    if count > 0 {
      SwatchesInLinesSound(lines, startLine, count - 1, split, parsesColor, parsesBezier);
      var lineNumber := startLine + count - 1;
      var pieces := split(ScannedLine(lines, lineNumber));
      var before := SwatchesInLines(lines, startLine, count - 1, split, parsesColor, parsesBezier);
      var found := LineSwatches(ScannedLine(lines, lineNumber), lineNumber, pieces, |pieces|, parsesColor, parsesBezier);
      assert SwatchesInLines(lines, startLine, count, split, parsesColor, parsesBezier) == before + found;
      LineSwatchesSound(lines, lineNumber, pieces, |pieces|, parsesColor, parsesBezier);
      forall s: Swatch | s in before + found
        ensures startLine <= s.line < startLine + count && SwatchSound(lines, s, parsesColor, parsesBezier)
      {
        if s !in before {
          assert s in found;
        }
      }
    }
  }

  /** The bookmarks after a rescan of lines `startLine..endLine`: those outside are kept, the found ones added. */
  function Rescanned(bookmarks: seq<Swatch>, lines: seq<string>, startLine: int, endLine: int, split: string -> seq<RegexMatch>, parsesColor: string -> bool, parsesBezier: string -> bool): seq<Swatch>
  {
    KeepOutside(bookmarks, startLine, endLine) +
    SwatchesInLines(lines, startLine, if endLine >= startLine then endLine - startLine + 1 else 0, split, parsesColor, parsesBezier)
  }

  /** The bookmarks outside lines `startLine..endLine`, in order. */
  function KeepOutside(bookmarks: seq<Swatch>, startLine: int, endLine: int): (r: seq<Swatch>)
    ensures forall s :: s in r <==> s in bookmarks && (s.line < startLine || s.line > endLine)
  {
    if bookmarks == [] then []
    else
      (if bookmarks[0].line < startLine || bookmarks[0].line > endLine then [bookmarks[0]] else []) +
      KeepOutside(bookmarks[1..], startLine, endLine)
  }

  // ----- The imperative model -----

  /** The part of the source text editor the plugin uses. */
  class TextEditor {
    var lines: seq<string>
    var selection: TextRange
    var bookmarks: seq<Swatch>
    /** How many times `undo` was called. */
    var undoCount: nat

    constructor (lines: seq<string>)
      ensures this.lines == lines && selection == TextRange(0, 0, 0, 0) && bookmarks == [] && undoCount == 0
    {
      this.lines := lines;
      selection := TextRange(0, 0, 0, 0);
      bookmarks := [];
      undoCount := 0;
    }

    method EditRange(line: int, startColumn: int, endColumn: int, text: string)
      modifies this
      ensures lines == ReplaceInLine(old(lines), line, startColumn, endColumn, text)
      ensures selection == old(selection) && bookmarks == old(bookmarks) && undoCount == old(undoCount)
    {
      lines := ReplaceInLine(lines, line, startColumn, endColumn, text);
    }

    method SetSelection(range: TextRange)
      modifies this
      ensures selection == range
      ensures lines == old(lines) && bookmarks == old(bookmarks) && undoCount == old(undoCount)
    {
      selection := range;
    }

    method Undo()
      modifies this
      ensures undoCount == old(undoCount) + 1
      ensures lines == old(lines) && selection == old(selection) && bookmarks == old(bookmarks)
    {
      undoCount := undoCount + 1;
    }
  }

  class CssPlugin {
    const editor: TextEditor
    var muteSwatchProcessing: bool
    var hadSwatchChange: bool
    var editedSwatchTextRange: Option<TextRange>
    var currentSwatch: Option<Swatch>

    /** The range of the swatch text being edited lies on one line. */
    ghost predicate Valid()
      reads this
    {
      editedSwatchTextRange.Some? ==> editedSwatchTextRange.value.startLine == editedSwatchTextRange.value.endLine
    }

    /** The plugin starts unmuted and scans the whole text for swatches. */
    constructor (editor: TextEditor, split: string -> seq<RegexMatch>, parsesColor: string -> bool, parsesBezier: string -> bool)
      modifies editor
      ensures this.editor == editor && Valid()
      ensures !muteSwatchProcessing && !hadSwatchChange && editedSwatchTextRange.None? && currentSwatch.None?
      ensures editor.bookmarks == Rescanned(old(editor.bookmarks), editor.lines, 0, |editor.lines| - 1, split, parsesColor, parsesBezier)
      ensures editor.lines == old(editor.lines) && editor.selection == old(editor.selection)
      ensures editor.undoCount == old(editor.undoCount)
    {
      this.editor := editor;
      muteSwatchProcessing := false;
      hadSwatchChange := false;
      editedSwatchTextRange := None;
      currentSwatch := None;
      new;
      UpdateSwatches(0, |editor.lines| - 1, split, parsesColor, parsesBezier);
    }

    /** `_handleUnitModification`: rewrites the number under the cursor and selects it. */
    method HandleUnitModification(change: int, tokenAt: Tokenizer) returns (handled: bool)
      modifies editor
      ensures var plan := PlanUnitModification(old(editor.lines), old(editor.selection), change, tokenAt);
        handled == plan.Some? &&
        (plan.None? ==> editor.lines == old(editor.lines) && editor.selection == old(editor.selection)) &&
        (plan.Some? ==>
          var e := plan.value;
          editor.lines == ReplaceInLine(old(editor.lines), e.line, e.startColumn, e.endColumn, e.newText) &&
          editor.selection == Normalize(old(editor.selection)).(startColumn := e.startColumn, endColumn := e.startColumn + |e.newText|))
      ensures editor.bookmarks == old(editor.bookmarks) && editor.undoCount == old(editor.undoCount)
    {
      var selection := Normalize(editor.selection);
      var token := tokenAt(selection.startLine, selection.startColumn);
      if token.None? {
        if selection.startColumn > 0 {
          token := tokenAt(selection.startLine, selection.startColumn - 1);
        }
        if token.None? {
          return false;
        }
      }
      if token.value.tokenType != "css-number" {
        return false;
      }
      var cssUnitText := RangeText(editor.lines, selection.startLine, token.value.startColumn, token.value.endColumn);
      var newUnitText := ModifyUnitAsWritten(cssUnitText, change);
      if newUnitText.None? {
        return false;
      }
      editor.EditRange(selection.startLine, token.value.startColumn, token.value.endColumn, newUnitText.value);
      selection := selection.(startColumn := token.value.startColumn);
      selection := selection.(endColumn := selection.startColumn + |newUnitText.value|);
      editor.SetSelection(selection);
      return true;
    }

    /** `_backtrackPropertyToken`, also returning how many tokens it looked at. */
    method BacktrackPropertyToken(lineNumber: int, columnNumber: int, tokenAt: Tokenizer) returns (token: Option<Token>, inspected: nat)
      ensures token == Backtrack(LineAt(editor.lines, lineNumber), tokenAt, lineNumber, columnNumber)
      ensures inspected <= BacktrackDepth
      ensures columnNumber < 0 ==> inspected == 0
    {
      var tokenPosition := columnNumber;
      var line := LineAt(editor.lines, lineNumber);
      var seenColon := false;
      var i := 0;
      inspected := 0;
      while i < BacktrackDepth && tokenPosition >= 0
        invariant 0 <= i <= BacktrackDepth && inspected == i
        invariant columnNumber < 0 ==> i == 0 && tokenPosition == columnNumber
        invariant Backtrack(line, tokenAt, lineNumber, columnNumber) ==
          Scan(line, tokenAt, lineNumber, tokenPosition, seenColon, BacktrackDepth - i)
        decreases BacktrackDepth - i
      {
        var t := tokenAt(lineNumber, tokenPosition);
        inspected := inspected + 1;
        if t.None? {
          return None, inspected;
        }
        if t.value.tokenType == "css-property" {
          return if seenColon then t else None, inspected;
        }
        if t.value.tokenType != "" && !(Contains(t.value.tokenType, "whitespace") || StartsWith(t.value.tokenType, "css-comment")) {
          return None, inspected;
        }
        if t.value.tokenType == "" && Substring(line, t.value.startColumn, t.value.endColumn) == ":" {
          if !seenColon {
            seenColon := true;
          } else {
            return None, inspected;
          }
        }
        tokenPosition := t.value.startColumn - 1;
        i := i + 1;
      }
      return None, inspected;
    }

    /** `_cssSuggestions`. */
    method CssSuggestions(prefixRange: TextRange, tokenAt: Tokenizer, propertyValues: string -> seq<string>) returns (r: Option<seq<string>>)
      ensures r == Suggestions(editor.lines, prefixRange, tokenAt, propertyValues)
    {
      var prefix := RangeText(editor.lines, prefixRange.startLine, prefixRange.startColumn, prefixRange.endColumn);
      if StartsWith(prefix, "$") {
        return None;
      }
      var propertyToken, _ := BacktrackPropertyToken(prefixRange.startLine, prefixRange.startColumn - 1, tokenAt);
      if propertyToken.None? {
        return None;
      }
      var tokenContent := RangeText(editor.lines, prefixRange.startLine, propertyToken.value.startColumn, propertyToken.value.endColumn);
      return Some(FilterByPrefix(propertyValues(tokenContent), prefix));
    }

    /** `_updateSwatches`: drops the bookmarks of the lines and bookmarks the swatches found on them again. */
    method UpdateSwatches(startLine: int, endLine: int, split: string -> seq<RegexMatch>, parsesColor: string -> bool, parsesBezier: string -> bool)
      modifies editor
      ensures editor.bookmarks == Rescanned(old(editor.bookmarks), editor.lines, startLine, endLine, split, parsesColor, parsesBezier)
      ensures editor.lines == old(editor.lines) && editor.selection == old(editor.selection)
      ensures editor.undoCount == old(editor.undoCount)
    {
      var swatches := ScanLines(editor.lines, startLine, endLine, split, parsesColor, parsesBezier);
      editor.bookmarks := KeepOutside(editor.bookmarks, startLine, endLine) + swatches;
    }

    /** The outer loop of `_updateSwatches`: the swatches of lines `startLine..endLine`, line by line. */
    static method ScanLines(lines: seq<string>, startLine: int, endLine: int, split: string -> seq<RegexMatch>, parsesColor: string -> bool, parsesBezier: string -> bool)
      returns (swatches: seq<Swatch>)
      ensures swatches == SwatchesInLines(lines, startLine, if endLine >= startLine then endLine - startLine + 1 else 0, split, parsesColor, parsesBezier)
    {
      swatches := [];
      var lineNumber := startLine;
      while lineNumber <= endLine
        invariant startLine <= lineNumber <= (if endLine >= startLine then endLine + 1 else startLine)
        invariant swatches == SwatchesInLines(lines, startLine, lineNumber - startLine, split, parsesColor, parsesBezier)
        decreases endLine - lineNumber
      {
        var line := ScannedLine(lines, lineNumber);
        var results := split(line);
        var found := ScanLine(line, lineNumber, results, parsesColor, parsesBezier);
        SwatchesInLinesStep(lines, startLine, lineNumber, split, parsesColor, parsesBezier, swatches, found);
        swatches := swatches + found;
        lineNumber := lineNumber + 1;
      }
    }

    /** The inner loop of `_updateSwatches`: the swatches of one scanned line, in order. */
    static method ScanLine(line: string, lineNumber: int, results: seq<RegexMatch>, parsesColor: string -> bool, parsesBezier: string -> bool)
      returns (found: seq<Swatch>)
      ensures found == LineSwatches(line, lineNumber, results, |results|, parsesColor, parsesBezier)
    {
      found := [];
      var i := 0;
      while i < |results|
        invariant 0 <= i <= |results|
        invariant found == LineSwatches(line, lineNumber, results, i, parsesColor, parsesBezier)
      {
        var result := results[i];
        ghost var expected := SwatchFor(line, lineNumber, result, parsesColor, parsesBezier);
        i := i + 1;
        if result.regexIndex == -1 || !(result.regexIndex == 2 || result.regexIndex == 3) {
          assert expected.None?;
          continue;
        }
        var positionBefore := result.position - 1;
        var positionAfter := result.position + |result.value|;
        if (positionBefore >= 0 && !DelimiterAt(line, positionBefore)) ||
           (positionAfter < |line| && !DelimiterAt(line, positionAfter)) {
          assert expected.None?;
          continue;
        }
        var parses := if result.regexIndex == 3 then parsesColor(result.value) else parsesBezier(result.value);
        if !parses {
          assert expected.None?;
          continue;
        }
        var kind := if result.regexIndex == 3 then ColorSwatch else BezierSwatch;
        assert expected == Some(Swatch(kind, result.value, lineNumber, result.position));
        found := found + [Swatch(kind, result.value, lineNumber, result.position)];
      }
    }

    /** `_swatchIconClicked`: mutes swatch processing and starts editing the swatch's text. */
    method SwatchIconClicked(swatch: Swatch)
      modifies this, editor
      ensures Valid()
      ensures !hadSwatchChange && muteSwatchProcessing && currentSwatch == Some(swatch)
      ensures editor.selection == TextRange(swatch.line, swatch.column, swatch.line, swatch.column)
      ensures editedSwatchTextRange == Some(TextRange(swatch.line, swatch.column, swatch.line, swatch.column + |swatch.text|))
      ensures editor.lines == old(editor.lines) && editor.bookmarks == old(editor.bookmarks)
      ensures editor.undoCount == old(editor.undoCount)
    {
      hadSwatchChange := false;
      muteSwatchProcessing := true;
      var swatchPosition := TextRange(swatch.line, swatch.column, swatch.line, swatch.column);
      editor.SetSelection(swatchPosition);
      editedSwatchTextRange := Some(swatchPosition.(endColumn := swatchPosition.endColumn + |swatch.text|));
      currentSwatch := Some(swatch);
    }

    /** `_changeSwatchText`: replaces the edited swatch text and records that it changed. */
    method ChangeSwatchText(text: string)
      requires Valid() && editedSwatchTextRange.Some?
      modifies this, editor
      ensures Valid() && hadSwatchChange
      ensures var range := old(editedSwatchTextRange.value);
        editor.lines == ReplaceInLine(old(editor.lines), range.startLine, range.startColumn, range.endColumn, text) &&
        editedSwatchTextRange == Some(range.(endColumn := range.startColumn + |text|))
      ensures muteSwatchProcessing == old(muteSwatchProcessing) && currentSwatch == old(currentSwatch)
      ensures editor.selection == old(editor.selection) && editor.bookmarks == old(editor.bookmarks)
      ensures editor.undoCount == old(editor.undoCount)
    {
      hadSwatchChange := true;
      var range := editedSwatchTextRange.value;
      editor.EditRange(range.startLine, range.startColumn, range.endColumn, text);
      editedSwatchTextRange := Some(range.(endColumn := range.startColumn + |text|));
    }

    /** `_swatchPopoverHidden`: unmutes, and undoes once when a changed swatch edit is cancelled. */
    method SwatchPopoverHidden(commitEdit: bool)
      modifies this, editor
      ensures !muteSwatchProcessing
      ensures editor.undoCount == old(editor.undoCount) + (if !commitEdit && old(hadSwatchChange) then 1 else 0)
      ensures hadSwatchChange == old(hadSwatchChange) && editedSwatchTextRange == old(editedSwatchTextRange)
      ensures currentSwatch == old(currentSwatch)
      ensures editor.lines == old(editor.lines) && editor.selection == old(editor.selection)
      ensures editor.bookmarks == old(editor.bookmarks)
    {
      muteSwatchProcessing := false;
      if !commitEdit && hadSwatchChange {
        editor.Undo();
      }
    }

    /** `_onTextChanged`: rescans the changed lines unless swatch processing is muted. */
    method OnTextChanged(newRange: TextRange, split: string -> seq<RegexMatch>, parsesColor: string -> bool, parsesBezier: string -> bool)
      returns (rescanned: bool)
      modifies editor
      ensures rescanned == !muteSwatchProcessing
      ensures editor.bookmarks == if rescanned
        then Rescanned(old(editor.bookmarks), editor.lines, newRange.startLine, newRange.endLine, split, parsesColor, parsesBezier)
        else old(editor.bookmarks)
      ensures editor.lines == old(editor.lines) && editor.selection == old(editor.selection)
      ensures editor.undoCount == old(editor.undoCount)
    {
      rescanned := !muteSwatchProcessing;
      if rescanned {
        UpdateSwatches(newRange.startLine, newRange.endLine, split, parsesColor, parsesBezier);
      }
    }
  }

  /**
   * A cancelled swatch edit: clicking the icon mutes processing, so the text
   * change the edit causes leaves the bookmarks alone; hiding the popover
   * without committing unmutes first and then undoes the edit exactly once,
   * so the text change the undo causes rescans the lines it touched.
   */
  method CancelledSwatchEdit(
    plugin: CssPlugin, swatch: Swatch, text: string, changed: TextRange, undone: TextRange,
    split: string -> seq<RegexMatch>, parsesColor: string -> bool, parsesBezier: string -> bool)
    returns (mutedBookmarks: seq<Swatch>, rescannedAfterUndo: bool)
    modifies plugin, plugin.editor
    ensures mutedBookmarks == old(plugin.editor.bookmarks)
    ensures rescannedAfterUndo
    ensures plugin.editor.undoCount == old(plugin.editor.undoCount) + 1
    ensures plugin.editor.bookmarks ==
      Rescanned(old(plugin.editor.bookmarks), plugin.editor.lines, undone.startLine, undone.endLine, split, parsesColor, parsesBezier)
    ensures !plugin.muteSwatchProcessing && plugin.Valid()
  {
    plugin.SwatchIconClicked(swatch);
    plugin.ChangeSwatchText(text);
    var rescanned := plugin.OnTextChanged(changed, split, parsesColor, parsesBezier);
    assert !rescanned;
    mutedBookmarks := plugin.editor.bookmarks;
    plugin.SwatchPopoverHidden(false);
    rescannedAfterUndo := plugin.OnTextChanged(undone, split, parsesColor, parsesBezier);
  }
}
