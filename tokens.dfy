/**
  The tokenizer of OkJson (tokenJsonWord and tokenJsonNumber, OkJson.java:59-236), as a
  function from the cursor state before a call to the status code and the cursor state after it.
  The class OkJson in okjson.dfy runs the same scan with loops and is proved equal to NextToken.
 */
module Tokens {
  import opened Common

  datatype TokenType =
    | LeftBrace | RightBrace | LeftBracket | RightBracket | Colon | Comma
    | StringTok | IntegerTok | DecimalTok | BoolTok | NullTok

  /** The cursor fields of an OkJson instance: jsonOffset, tokenType, beginOffset, endOffset
      and booleanValue. The span of the last token is begin..end, both inclusive. */
  datatype Lexer = Lexer(offset: int, tokenType: TokenType, begin: int, end: int, boolValue: bool)

  /** A status code (0, END_OF_BUFFER, INVALID_BYTE, or -8 for a read past the buffer)
      together with the cursor it leaves behind. */
  datatype Scan = Scan(code: int, lexer: Lexer)

  predicate IsWhitespace(c: char) { c == ' ' || c == '\t' || c == '\r' || c == '\n' }

  predicate IsDigit(c: char) { '0' <= c <= '9' }

  predicate IsStructural(c: char) { c == '{' || c == '}' || c == '[' || c == ']' || c == ':' || c == ',' }

  function StructuralKind(c: char): TokenType
    requires IsStructural(c)
  {
    match c
    case '{' => LeftBrace
    case '}' => RightBrace
    case '[' => LeftBracket
    case ']' => RightBracket
    case ':' => Colon
    case ',' => Comma
  }

  /** Every character of json[i..j] is whitespace. */
  ghost predicate Blank(json: string, i: int, j: int)
    requires 0 <= i <= j <= |json|
  {
    forall p :: i <= p < j ==> IsWhitespace(json[p])
  }

  /** The token span lies inside the part of the buffer already consumed. */
  predicate SpanOk(json: string, lx: Lexer)
  {
    0 <= lx.begin <= lx.end + 1 <= lx.offset <= |json|
  }

  /** The characters of the last token's span. */
  function Text(json: string, lx: Lexer): string
    requires SpanOk(json, lx)
  {
    json[lx.begin .. lx.end + 1]
  }

  /** The position of the first '"' at or after i, or |json| when there is none. */
  function CloseQuote(json: string, i: int): (q: int)
    requires 0 <= i <= |json|
    decreases |json| - i
    ensures i <= q <= |json|
    ensures q < |json| ==> json[q] == '"'
    ensures forall p :: i <= p < q ==> json[p] != '"'
  {
    if i == |json| then i
    else if json[i] == '"' then i
    else CloseQuote(json, i + 1)
  }

  /** Outcome of comparing a keyword such as "true" with the buffer, character after character. */
  datatype Match = Matched | Mismatch(at: int) | OutOfBounds

  /** Compares word[j..] with json[start + j..], as the nested ifs of OkJson.java:164-227 do;
      reading at |json| is Java's ArrayIndexOutOfBoundsException. */
  function MatchFrom(json: string, start: int, word: string, j: nat): (m: Match)
    requires 0 <= start < |json| && 1 <= j
    decreases |word| - j
    ensures m.Mismatch? ==> start + j <= m.at < |json| && m.at < start + |word|
    ensures m.Mismatch? ==> json[m.at] != word[m.at - start]
    ensures m.Mismatch? ==> forall p :: start + j <= p < m.at ==> json[p] == word[p - start]
    ensures m.Matched? ==> start + |word| <= |json| || |word| <= j
  {
    if j >= |word| then Matched
    else if start + j >= |json| then OutOfBounds
    else if json[start + j] != word[j] then Mismatch(start + j)
    else MatchFrom(json, start, word, j + 1)
  }

  function KeywordFor(c: char): string
  {
    if c == 't' then "true" else if c == 'f' then "false" else "null"
  }

  /** The number scan of tokenJsonNumber from position i on; seenDot records a '.' already seen.
      The character that ends the number is consumed as well (OkJson.java:86-87). */
  function NumberRun(json: string, lx: Lexer, i: int, seenDot: bool): (r: Scan)
    requires 0 <= lx.begin <= i <= |json|
    decreases |json| - i
    ensures i <= r.lexer.offset <= |json|
    ensures r.code == 0 || r.code == EndOfBuffer
    ensures r.code == EndOfBuffer ==> r == Scan(EndOfBuffer, lx.(offset := |json|))
    ensures r.code == 0 ==> SpanOk(json, r.lexer) && r.lexer.offset == r.lexer.end + 2
    ensures r.code == 0 ==> r.lexer.begin == lx.begin && r.lexer.boolValue == lx.boolValue
    ensures r.code == 0 ==> r.lexer.tokenType == IntegerTok || r.lexer.tokenType == DecimalTok
  {
    if i >= |json| then Scan(EndOfBuffer, lx.(offset := i))
    else if IsDigit(json[i]) then NumberRun(json, lx, i + 1, seenDot)
    else if json[i] == '.' then NumberRun(json, lx, i + 1, true)
    else Scan(0, lx.(offset := i + 1, tokenType := if seenDot then DecimalTok else IntegerTok, end := i - 1))
  }

  /** tokenJsonNumber, entered at a '-' or a digit. */
  function ScanNumber(json: string, lx: Lexer): (r: Scan)
    requires 0 <= lx.offset < |json|
  {
    var start := lx.offset;
    NumberRun(json, lx.(begin := start), if json[start] == '-' then start + 1 else start, false)
  }

  /** tokenJsonWord: skips whitespace and yields the next token. A keyword whose spelling breaks
      off before its end resumes the scan at the first character that did not match. */
  function NextToken(json: string, lx: Lexer): (r: Scan)
    requires 0 <= lx.offset <= |json|
    decreases |json| - lx.offset
    ensures lx.offset <= r.lexer.offset <= |json|
    ensures r.code == 0 || r.code == EndOfBuffer || r.code == InvalidByte || r.code == Exception
    ensures r.code == 0 ==> lx.offset < r.lexer.offset && SpanOk(json, r.lexer)
    ensures r.code == EndOfBuffer || r.code == Exception ==> r.lexer.offset == |json|
    // A closing token leaves the cursor right after it.
    ensures r.code == 0 && (r.lexer.tokenType == RightBrace || r.lexer.tokenType == RightBracket)
         ==> r.lexer.offset == r.lexer.end + 1
    // INVALID_BYTE leaves the cursor on a character that no token can start with.
    ensures r.code == InvalidByte ==>
              && r.lexer.offset < |json|
              && !IsWhitespace(json[r.lexer.offset]) && !IsStructural(json[r.lexer.offset])
              && json[r.lexer.offset] != '"' && json[r.lexer.offset] != '-' && !IsDigit(json[r.lexer.offset])
              && json[r.lexer.offset] != 't' && json[r.lexer.offset] != 'f' && json[r.lexer.offset] != 'n'
  {
    if lx.offset >= |json| then Scan(EndOfBuffer, lx)
    else
      var off := lx.offset;
      var ch := json[off];
      if IsWhitespace(ch) then NextToken(json, lx.(offset := off + 1))
      else if IsStructural(ch) then
        Scan(0, lx.(offset := off + 1, tokenType := StructuralKind(ch), begin := off, end := off))
      else if ch == '"' then
        var q := CloseQuote(json, off + 1);
        if q == |json| then Scan(EndOfBuffer, lx.(offset := |json|, begin := off + 1))
        else Scan(0, lx.(offset := q + 1, tokenType := StringTok, begin := off + 1, end := q - 1))
      else if ch == '-' || IsDigit(ch) then ScanNumber(json, lx)
      else if ch == 't' || ch == 'f' || ch == 'n' then
        var word := KeywordFor(ch);
        match MatchFrom(json, off, word, 1)
        case Matched =>
          Scan(0, lx.(offset := off + |word|, tokenType := if ch == 'n' then NullTok else BoolTok,
                      begin := off, end := off + |word| - 1, boolValue := ch != 'f'))
        case OutOfBounds => Scan(Exception, lx.(offset := |json|, begin := off))
        case Mismatch(k) => NextToken(json, lx.(offset := k, begin := off))
      else Scan(InvalidByte, lx)
  }

  // ---------------------------------------------------------------------------------------
  // Properties of the tokenizer

  /** Whitespace before the next token changes nothing but where the scan starts. */
  lemma {:induction false} SkipBlank(json: string, lx: Lexer, k: int)
    requires 0 <= lx.offset <= k <= |json|
    requires Blank(json, lx.offset, k)
    ensures NextToken(json, lx) == NextToken(json, lx.(offset := k))
    decreases k - lx.offset
  {
    if lx.offset < k {
      SkipBlank(json, lx.(offset := lx.offset + 1), k);
    } else {
      assert lx == lx.(offset := k);
    }
  }

  /** A remainder made only of whitespace yields END_OF_BUFFER at the end of the buffer. */
  lemma OnlyBlankLeft(json: string, lx: Lexer)
    requires 0 <= lx.offset <= |json|
    requires Blank(json, lx.offset, |json|)
    ensures NextToken(json, lx) == Scan(EndOfBuffer, lx.(offset := |json|))
  {
    SkipBlank(json, lx, |json|);
  }

  /** Each of { } [ ] : , yields its own token with begin == end == its position, and the
      cursor moves one past it. */
  lemma StructuralToken(json: string, lx: Lexer, k: int)
    requires 0 <= lx.offset <= k < |json|
    requires Blank(json, lx.offset, k) && IsStructural(json[k])
    ensures NextToken(json, lx)
         == Scan(0, lx.(offset := k + 1, tokenType := StructuralKind(json[k]), begin := k, end := k))
  {
    SkipBlank(json, lx, k);
  }

  /** "true" and "false" yield BOOL with booleanValue set accordingly; "null" yields NULL
      (and, as the source does, sets booleanValue to true). */
  lemma KeywordToken(json: string, lx: Lexer, k: int, word: string)
    requires word == "true" || word == "false" || word == "null"
    requires 0 <= lx.offset <= k && k + |word| <= |json|
    requires Blank(json, lx.offset, k) && json[k .. k + |word|] == word
    ensures NextToken(json, lx)
         == Scan(0, lx.(offset := k + |word|, tokenType := if word == "null" then NullTok else BoolTok,
                        begin := k, end := k + |word| - 1, boolValue := word != "false"))
  {
    SkipBlank(json, lx, k);
    assert json[k] == word[0];
    assert KeywordFor(json[k]) == word;
    MatchedWord(json, k, word, 1);
  }

  lemma {:induction false} MatchedWord(json: string, start: int, word: string, j: nat)
    requires 0 <= start && start + |word| <= |json| && 1 <= j && 1 <= |word|
    requires json[start .. start + |word|] == word
    ensures MatchFrom(json, start, word, j) == Matched
    decreases |word| - j
  {
    if j < |word| {
      assert json[start + j] == word[j];
      MatchedWord(json, start, word, j + 1);
    }
  }

  /** The keyword branches of tokenJsonWord, one step unfolded: the outcome of matching the
      keyword named by its first character decides the token. */
  lemma KeywordScan(json: string, lx: Lexer)
    requires 0 <= lx.offset < |json|
    requires json[lx.offset] == 't' || json[lx.offset] == 'f' || json[lx.offset] == 'n'
    ensures var off := lx.offset;
            var word := KeywordFor(json[off]);
            NextToken(json, lx)
              == match MatchFrom(json, off, word, 1)
                 case Matched =>
                   Scan(0, lx.(offset := off + |word|, tokenType := if json[off] == 'n' then NullTok else BoolTok,
                               begin := off, end := off + |word| - 1, boolValue := json[off] != 'f'))
                 case OutOfBounds => Scan(Exception, lx.(offset := |json|, begin := off))
                 case Mismatch(k) => NextToken(json, lx.(offset := k, begin := off))
  {
  }

  /** A keyword prefix that breaks off, such as "tr?", is passed over: scanning resumes at the
      first character that does not match, with beginOffset left at the keyword's start. */
  lemma KeywordMismatch(json: string, lx: Lexer, k: int)
    requires 0 <= lx.offset <= k < |json|
    requires Blank(json, lx.offset, k)
    requires json[k] == 't' || json[k] == 'f' || json[k] == 'n'
    requires MatchFrom(json, k, KeywordFor(json[k]), 1).Mismatch?
    ensures var m := MatchFrom(json, k, KeywordFor(json[k]), 1).at;
            k < m < |json| && json[m] != KeywordFor(json[k])[m - k] &&
            NextToken(json, lx) == NextToken(json, lx.(offset := m, begin := k))
  {
    SkipBlank(json, lx, k);
  }

  /** Any other character that is not whitespace is rejected with INVALID_BYTE, and the cursor
      stays on it. */
  lemma InvalidByteToken(json: string, lx: Lexer, k: int)
    requires 0 <= lx.offset <= k < |json|
    requires Blank(json, lx.offset, k)
    requires var c := json[k];
      !IsWhitespace(c) && !IsStructural(c) && c != '"' && c != '-' && !IsDigit(c)
      && c != 't' && c != 'f' && c != 'n'
    ensures NextToken(json, lx) == Scan(InvalidByte, lx.(offset := k))
  {
    SkipBlank(json, lx, k);
  }

  /** A string token's span excludes both quotes, and the cursor moves past the closing one. */
  lemma StringToken(json: string, lx: Lexer, k: int, q: int)
    requires 0 <= lx.offset <= k < q < |json|
    requires Blank(json, lx.offset, k)
    requires json[k] == '"' && json[q] == '"'
    requires forall p :: k < p < q ==> json[p] != '"'
    ensures NextToken(json, lx)
         == Scan(0, lx.(offset := q + 1, tokenType := StringTok, begin := k + 1, end := q - 1))
    ensures Text(json, NextToken(json, lx).lexer) == json[k + 1 .. q]
  {
    SkipBlank(json, lx, k);
    CloseQuoteIs(json, k + 1, q);
  }

  lemma {:induction false} CloseQuoteIs(json: string, i: int, q: int)
    requires 0 <= i <= q <= |json|
    requires q < |json| ==> json[q] == '"'
    requires forall p :: i <= p < q ==> json[p] != '"'
    ensures CloseQuote(json, i) == q
    decreases q - i
  {
    if i < q {
      CloseQuoteIs(json, i + 1, q);
    }
  }

  /** A string with no closing quote yields END_OF_BUFFER. */
  lemma UnterminatedString(json: string, lx: Lexer, k: int)
    requires 0 <= lx.offset <= k < |json|
    requires Blank(json, lx.offset, k)
    requires json[k] == '"'
    requires forall p :: k < p < |json| ==> json[p] != '"'
    ensures NextToken(json, lx) == Scan(EndOfBuffer, lx.(offset := |json|, begin := k + 1))
  {
    SkipBlank(json, lx, k);
    CloseQuoteIs(json, k + 1, |json|);
  }

  predicate IsNumberChar(c: char) { IsDigit(c) || c == '.' }

  /** Where the run of digits and dots of a number starting at k begins. */
  function RunStart(json: string, k: int): int
    requires 0 <= k < |json|
  {
    if json[k] == '-' then k + 1 else k
  }

  /** A number token: an optional '-' then a run of digits and '.', ended at e. The kind is
      DECIMAL exactly when the run holds a '.', endOffset is e, and the cursor ends at e + 2
      because the character after the number is consumed too. */
  lemma NumberToken(json: string, lx: Lexer, k: int, e: int)
    requires 0 <= lx.offset <= k < |json| && Blank(json, lx.offset, k)
    requires json[k] == '-' || IsDigit(json[k])
    requires RunStart(json, k) - 1 <= e && e + 1 < |json|
    requires forall p :: RunStart(json, k) <= p <= e ==> IsNumberChar(json[p])
    requires !IsNumberChar(json[e + 1])
    ensures NextToken(json, lx)
         == Scan(0, lx.(offset := e + 2, begin := k, end := e,
                        tokenType := if '.' in json[RunStart(json, k) .. e + 1] then DecimalTok else IntegerTok))
  {
    SkipBlank(json, lx, k);
    var lk := lx.(offset := k);
    assert NextToken(json, lk) == ScanNumber(json, lk);
    RunTo(json, lk.(begin := k), RunStart(json, k), e, false);
  }

  lemma {:induction false} RunTo(json: string, lx: Lexer, i: int, e: int, seenDot: bool)
    requires 0 <= lx.begin <= i <= e + 1 < |json|
    requires forall p :: i <= p <= e ==> IsNumberChar(json[p])
    requires !IsNumberChar(json[e + 1])
    ensures NumberRun(json, lx, i, seenDot)
         == Scan(0, lx.(offset := e + 2, end := e,
                        tokenType := if seenDot || '.' in json[i .. e + 1] then DecimalTok else IntegerTok))
    decreases e + 1 - i
  {
    if i <= e {
      RunTo(json, lx, i + 1, e, seenDot || json[i] == '.');
      assert json[i .. e + 1] == [json[i]] + json[i + 1 .. e + 1];
    }
  }

  /** A number that runs into the end of the buffer yields END_OF_BUFFER. */
  lemma NumberAtEnd(json: string, lx: Lexer, k: int)
    requires 0 <= lx.offset <= k < |json| && Blank(json, lx.offset, k)
    requires json[k] == '-' || IsDigit(json[k])
    requires forall p :: RunStart(json, k) <= p < |json| ==> IsNumberChar(json[p])
    ensures NextToken(json, lx) == Scan(EndOfBuffer, lx.(offset := |json|, begin := k))
  {
    SkipBlank(json, lx, k);
    var lk := lx.(offset := k);
    assert NextToken(json, lk) == ScanNumber(json, lk);
    RunToEnd(json, lk.(begin := k), RunStart(json, k), false);
  }

  lemma {:induction false} RunToEnd(json: string, lx: Lexer, i: int, seenDot: bool)
    requires 0 <= lx.begin <= i <= |json|
    requires forall p :: i <= p < |json| ==> IsNumberChar(json[p])
    ensures NumberRun(json, lx, i, seenDot) == Scan(EndOfBuffer, lx.(offset := |json|))
    decreases |json| - i
  {
    if i < |json| {
      RunToEnd(json, lx, i + 1, seenDot || json[i] == '.');
    }
  }

  /** json and json2 hold the same characters before position n. */
  predicate Agree(json: string, json2: string, n: int)
  {
    0 <= n <= |json| && n <= |json2| && (forall p :: 0 <= p < n ==> json[p] == json2[p])
  }

  /** A successful scan reads nothing at or beyond the offset where it stops: any buffer that
      holds the same characters before that offset scans to the same token. */
  lemma {:induction false} ScanIgnoresRest(json: string, json2: string, lx: Lexer)
    requires 0 <= lx.offset <= |json|
    requires NextToken(json, lx).code == 0
    requires Agree(json, json2, NextToken(json, lx).lexer.offset)
    ensures NextToken(json2, lx) == NextToken(json, lx)
    decreases |json| - lx.offset, 1
  {
    var off := lx.offset;
    var ch := json[off];
    assert json2[off] == ch;
    if IsWhitespace(ch) {
      ScanIgnoresRest(json, json2, lx.(offset := off + 1));
    } else if IsStructural(ch) {
    } else if ch == '"' {
      var q := CloseQuote(json, off + 1);
      CloseQuoteIs(json2, off + 1, q);
    } else if ch == '-' || IsDigit(ch) {
      NumberIgnoresRest(json, json2, lx.(begin := off), RunStart(json, off), false);
    } else if ch == 't' || ch == 'f' || ch == 'n' {
      KeywordIgnoresRest(json, json2, lx);
    }
  }

  lemma {:induction false} KeywordIgnoresRest(json: string, json2: string, lx: Lexer)
    requires 0 <= lx.offset < |json|
    requires json[lx.offset] == 't' || json[lx.offset] == 'f' || json[lx.offset] == 'n'
    requires NextToken(json, lx).code == 0
    requires Agree(json, json2, NextToken(json, lx).lexer.offset)
    ensures NextToken(json2, lx) == NextToken(json, lx)
    decreases |json| - lx.offset, 0
  {
    var off := lx.offset;
    assert json2[off] == json[off];
    KeywordScan(json, lx);
    KeywordScan(json2, lx);
    var word := KeywordFor(json[off]);
    match MatchFrom(json, off, word, 1)
    case Matched =>
      MatchIgnoresRest(json, json2, off, word, 1, off + |word|);
    case OutOfBounds =>
    case Mismatch(k) =>
      var r := NextToken(json, lx.(offset := k, begin := off));
      MatchIgnoresRest(json, json2, off, word, 1, r.lexer.offset);
      ScanIgnoresRest(json, json2, lx.(offset := k, begin := off));
  }

  lemma {:induction false} NumberIgnoresRest(json: string, json2: string, lx: Lexer, i: int, seenDot: bool)
    requires 0 <= lx.begin <= i <= |json|
    requires NumberRun(json, lx, i, seenDot).code == 0
    requires Agree(json, json2, NumberRun(json, lx, i, seenDot).lexer.offset)
    ensures NumberRun(json2, lx, i, seenDot) == NumberRun(json, lx, i, seenDot)
    decreases |json| - i
  {
    assert json2[i] == json[i];
    if IsDigit(json[i]) {
      NumberIgnoresRest(json, json2, lx, i + 1, seenDot);
    } else if json[i] == '.' {
      NumberIgnoresRest(json, json2, lx, i + 1, true);
    }
  }

  lemma {:induction false} MatchIgnoresRest(json: string, json2: string, start: int, word: string, j: nat, n: int)
    requires 0 <= start < |json| && 1 <= j
    requires Agree(json, json2, n) && start < n
    requires MatchFrom(json, start, word, j).Matched? ==> start + |word| <= n || |word| <= j
    requires MatchFrom(json, start, word, j).Mismatch? ==> MatchFrom(json, start, word, j).at < n
    requires !MatchFrom(json, start, word, j).OutOfBounds?
    ensures MatchFrom(json2, start, word, j) == MatchFrom(json, start, word, j)
    decreases |word| - j
  {
    if j < |word| {
      assert json2[start + j] == json[start + j];
      if json[start + j] == word[j] {
        MatchIgnoresRest(json, json2, start, word, j + 1, n);
      }
    }
  }
}
