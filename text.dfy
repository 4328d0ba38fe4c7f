/**
 * String operations of Rust's `str` that the core relies on: whitespace
 * classification, trimming, splitting, substring search, ASCII lower-casing,
 * UTF-8 byte length and decimal formatting of numbers.
 */
module Text {

  /** Rust's `char::is_whitespace`: the Unicode White_Space property. */
  predicate IsWhitespace(c: char) {
    || c == ' '
    || ('\t' <= c <= '\r')
    || c == '\U{85}' || c == '\U{A0}' || c == '\U{1680}'
    || ('\U{2000}' <= c <= '\U{200A}')
    || c == '\U{2028}' || c == '\U{2029}' || c == '\U{202F}' || c == '\U{205F}' || c == '\U{3000}'
  }

  /** Every character of `s` is whitespace (vacuously true of ""). */
  predicate IsBlank(s: string) {
    forall i | 0 <= i < |s| :: IsWhitespace(s[i])
  }

  /** Number of bytes the UTF-8 encoding of `c` takes. */
  function Utf8Width(c: char): (n: nat)
    ensures 1 <= n <= 4
    ensures c as int < 0x80 <==> n == 1
  {
    if c as int < 0x80 then 1
    else if c as int < 0x800 then 2
    else if c as int < 0x1_0000 then 3
    else 4
  }

  /** Rust's `str::len`: the length of the UTF-8 encoding in bytes. */
  function ByteLen(s: string): (n: nat)
    ensures |s| <= n <= 4 * |s|
    ensures n == |s| <==> forall i | 0 <= i < |s| :: s[i] as int < 0x80
    ensures |s| == 1 ==> n == Utf8Width(s[0])
  {
    if s == [] then 0
    else
      var n := Utf8Width(s[0]) + ByteLen(s[1..]);
      assert forall i | 1 <= i < |s| :: s[i] == s[1..][i - 1];
      n
  }

  /** The encoding of a concatenation is the concatenation of the encodings. */
  lemma {:induction false} ByteLenAppend(a: string, b: string)
    ensures ByteLen(a + b) == ByteLen(a) + ByteLen(b)
  {
    if a == [] {
      assert a + b == b;
    } else {
      assert (a + b)[1..] == a[1..] + b;
      ByteLenAppend(a[1..], b);
    }
  }

  predicate IsPrefix(p: string, s: string) {
    |p| <= |s| && s[..|p|] == p
  }

  predicate IsSuffix(p: string, s: string) {
    |p| <= |s| && s[|s| - |p|..] == p
  }

  /** A suffix of a suffix is a suffix. */
  lemma SuffixOfSuffix(a: string, b: string, c: string)
    requires IsSuffix(a, b) && IsSuffix(b, c)
    ensures IsSuffix(a, c)
  {
    assert c[|c| - |a|..] == c[|c| - |b|..][|b| - |a|..];
  }

  /** A concatenation starts with its first part and ends with its second. */
  lemma PrefixSuffixOfConcat(a: string, b: string)
    ensures IsPrefix(a, a + b) && IsSuffix(b, a + b)
  {
    assert (a + b)[..|a|] == a;
    assert (a + b)[|a|..] == b;
  }

  /** `sub` occurs in `s` starting at index `i`. */
  predicate OccursAt(s: string, sub: string, i: int) {
    0 <= i && i + |sub| <= |s| && s[i..i + |sub|] == sub
  }

  /** Rust's `str::contains` with a string pattern. */
  predicate Contains(s: string, sub: string) {
    exists i | 0 <= i <= |s| - |sub| :: OccursAt(s, sub, i)
  }

  /** Rust's `str::to_lowercase`, restricted to ASCII letters. */
  function LowerChar(c: char): char {
    if 'A' <= c <= 'Z' then (c as int + 32) as char else c
  }

  function ToLower(s: string): (r: string)
    ensures |r| == |s|
    ensures forall i | 0 <= i < |s| :: 'A' <= s[i] <= 'Z' ==> r[i] as int == s[i] as int + 32
    ensures forall i | 0 <= i < |s| :: !('A' <= s[i] <= 'Z') ==> r[i] == s[i]
  {
    seq(|s|, i requires 0 <= i < |s| => LowerChar(s[i]))
  }

  /** Lower-casing leaves no ASCII capital behind. */
  lemma ToLowerLeavesNoCapitals(s: string)
    ensures forall i | 0 <= i < |s| :: !('A' <= ToLower(s)[i] <= 'Z')
  {
    var r := ToLower(s);
    forall i | 0 <= i < |s|
      ensures !('A' <= r[i] <= 'Z')
    {
      if 'A' <= s[i] <= 'Z' {
        assert r[i] as int == s[i] as int + 32;
      }
    }
  }

  /** Rust's `str::trim_start`. */
  function TrimStart(s: string): (r: string)
    ensures IsSuffix(r, s)
    ensures r == [] || !IsWhitespace(r[0])
    ensures IsBlank(s[..|s| - |r|])
  {
    if s != [] && IsWhitespace(s[0]) then
      var r := TrimStart(s[1..]);
      assert s[..|s| - |r|] == [s[0]] + s[1..][..|s| - 1 - |r|];
      r
    else s
  }

  /** Rust's `str::trim_end`. */
  function TrimEnd(s: string): (r: string)
    ensures IsPrefix(r, s)
    ensures r == [] || !IsWhitespace(r[|r| - 1])
    ensures IsBlank(s[|r|..])
  {
    if s != [] && IsWhitespace(s[|s| - 1]) then
      var r := TrimEnd(s[..|s| - 1]);
      assert s[|r|..] == s[..|s| - 1][|r|..] + [s[|s| - 1]];
      r
    else s
  }

  /** Rust's `str::trim`. */
  function Trim(s: string): string {
    TrimEnd(TrimStart(s))
  }

  /** A string trims to nothing exactly when it is all whitespace. */
  lemma TrimEmptyIffBlank(s: string)
    ensures Trim(s) == [] <==> IsBlank(s)
  {
    var t := TrimStart(s);
    if Trim(s) == [] {
      assert IsBlank(t[0..]);
      assert s == s[..|s| - |t|] + t;
    } else {
      var r := Trim(s);
      assert r[0] == t[0];
      assert !IsWhitespace(s[|s| - |t|]);
    }
  }

  /** Length of the leading run of non-whitespace characters of `s`. */
  function WordEnd(s: string): (k: nat)
    ensures k <= |s|
    ensures forall i | 0 <= i < k :: !IsWhitespace(s[i])
    ensures k < |s| ==> IsWhitespace(s[k])
  {
    if s == [] || IsWhitespace(s[0]) then 0 else 1 + WordEnd(s[1..])
  }

  /** A word of `split_whitespace`: non-empty and free of whitespace. */
  predicate IsWord(w: string) {
    w != [] && forall i | 0 <= i < |w| :: !IsWhitespace(w[i])
  }

  /** Rust's `str::split_whitespace`: the maximal runs of non-whitespace. */
  function Words(s: string): (ws: seq<string>)
    ensures forall j | 0 <= j < |ws| :: IsWord(ws[j])
    decreases |s|
  {
    if s == [] then []
    else if IsWhitespace(s[0]) then Words(s[1..])
    else
      var k := WordEnd(s);
      [s[..k]] + Words(s[k..])
  }

  function WordCount(s: string): nat {
    |Words(s)|
  }

  /** A text has no words exactly when it is all whitespace. */
  lemma {:induction false} NoWordsIffBlank(s: string)
    ensures Words(s) == [] <==> IsBlank(s)
    decreases |s|
  {
    if s == [] {
    } else if IsWhitespace(s[0]) {
      NoWordsIffBlank(s[1..]);
      if IsBlank(s[1..]) {
        forall i | 0 <= i < |s| ensures IsWhitespace(s[i]) {
          if i > 0 { assert s[i] == s[1..][i - 1]; }
        }
      } else {
        var i :| 0 <= i < |s[1..]| && !IsWhitespace(s[1..][i]);
        assert s[i + 1] == s[1..][i];
      }
    } else {
      assert Words(s) != [];
    }
  }

  /** A run of non-whitespace ends at the first whitespace character, or at the end. */
  lemma {:induction false} WordEndAt(s: string, k: nat)
    requires k <= |s|
    requires forall i | 0 <= i < k :: !IsWhitespace(s[i])
    requires k < |s| ==> IsWhitespace(s[k])
    ensures WordEnd(s) == k
  {
    if k > 0 {
      assert forall i | 0 <= i < k - 1 :: s[1..][i] == s[i + 1];
      WordEndAt(s[1..], k - 1);
    }
  }

  /** `split_whitespace` inverts joining words with single spaces. */
  lemma {:induction false} WordsOfJoin(ws: seq<string>)
    requires forall j | 0 <= j < |ws| :: IsWord(ws[j])
    ensures Words(Join(ws, " ")) == ws
  {
    if ws == [] {
    } else if |ws| == 1 {
      var w := ws[0];
      WordEndAt(w, |w|);
      assert w[..|w|] == w && w[|w|..] == [];
    } else {
      var w := ws[0];
      var rest := Join(ws[1..], " ");
      var s := w + " " + rest;
      assert Join(ws, " ") == s;
      assert forall i | 0 <= i < |w| :: s[i] == w[i];
      WordEndAt(s, |w|);
      assert s[..|w|] == w;
      var after := s[|w|..];
      assert after == " " + rest;
      assert after[1..] == rest;
      WordsOfJoin(ws[1..]);
      assert Words(after) == Words(rest);
    }
  }

  /** The characters of `s` that are not whitespace, in order. */
  function NonWhitespace(s: string): string {
    if s == [] then [] else (if IsWhitespace(s[0]) then [] else [s[0]]) + NonWhitespace(s[1..])
  }

  /** A leading run of non-whitespace is kept whole. */
  lemma {:induction false} NonWhitespaceRun(s: string, k: nat)
    requires k <= |s| && forall i | 0 <= i < k :: !IsWhitespace(s[i])
    ensures NonWhitespace(s) == s[..k] + NonWhitespace(s[k..])
  {
    if k > 0 {
      var t := s[1..];
      forall i | 0 <= i < k - 1
        ensures !IsWhitespace(t[i])
      {
        assert t[i] == s[i + 1];
      }
      NonWhitespaceRun(t, k - 1);
      calc {
        NonWhitespace(s);
        [s[0]] + NonWhitespace(t);
        [s[0]] + (t[..k - 1] + NonWhitespace(t[k - 1..]));
        { assert t[k - 1..] == s[k..]; }
        ([s[0]] + t[..k - 1]) + NonWhitespace(s[k..]);
        { assert s[..k] == [s[0]] + t[..k - 1]; }
        s[..k] + NonWhitespace(s[k..]);
      }
    }
  }

  /** The words hold exactly the non-whitespace characters of the text, in order. */
  lemma {:induction false} WordsConcat(s: string)
    ensures Concat(Words(s)) == NonWhitespace(s)
    decreases |s|
  {
    if s == [] {
    } else if IsWhitespace(s[0]) {
      WordsConcat(s[1..]);
    } else {
      var k := WordEnd(s);
      var ws := Words(s);
      assert ws == [s[..k]] + Words(s[k..]);
      assert ws[1..] == Words(s[k..]);
      WordsConcat(s[k..]);
      NonWhitespaceRun(s, k);
    }
  }

  /** Any whitespace character separates words: the words on each side are kept apart and unchanged. */
  lemma {:induction false} WordsAtWhitespace(a: string, c: char, b: string)
    requires IsWhitespace(c)
    ensures Words(a + [c] + b) == Words(a) + Words(b)
    decreases |a|
  {
    var s := a + [c] + b;
    if a == [] {
      assert s[1..] == b;
    } else if IsWhitespace(a[0]) {
      assert s[1..] == a[1..] + [c] + b;
      WordsAtWhitespace(a[1..], c, b);
    } else {
      var j := WordEnd(a);
      assert forall i | 0 <= i < j :: s[i] == a[i];
      WordEndAt(s, j);
      assert s[..j] == a[..j];
      if j < |a| {
        assert s[j..] == a[j..] + [c] + b;
        WordsAtWhitespace(a[j..], c, b);
      } else {
        assert a[j..] == [];
        assert s[j..][1..] == b;
      }
    }
  }

  /** Length of the leading run of characters of `s` that are not in `seps`. */
  function PieceEnd(s: string, seps: set<char>): (k: nat)
    ensures k <= |s|
    ensures forall i | 0 <= i < k :: s[i] !in seps
    ensures k < |s| ==> s[k] in seps
  {
    if s == [] || s[0] in seps then 0 else 1 + PieceEnd(s[1..], seps)
  }

  /**
   * Rust's `str::split` with a character predicate: the pieces between the
   * separators, so n separators give n + 1 pieces (possibly empty).
   */
  function SplitOn(s: string, seps: set<char>): (parts: seq<string>)
    ensures |parts| >= 1
    ensures forall j | 0 <= j < |parts| :: forall i | 0 <= i < |parts[j]| :: parts[j][i] !in seps
    decreases |s|
  {
    var k := PieceEnd(s, seps);
    if k == |s| then [s] else [s[..k]] + SplitOn(s[k + 1..], seps)
  }

  /** A separator-free prefix ending at a separator, or at the end, is the first piece. */
  lemma {:induction false} PieceEndAt(s: string, seps: set<char>, k: nat)
    requires k <= |s|
    requires forall i | 0 <= i < k :: s[i] !in seps
    requires k < |s| ==> s[k] in seps
    ensures PieceEnd(s, seps) == k
  {
    if k > 0 {
      assert forall i | 0 <= i < k - 1 :: s[1..][i] == s[i + 1];
      PieceEndAt(s[1..], seps, k - 1);
    }
  }

  /** Joining the pieces with the separator gives back the text. */
  lemma {:induction false} JoinSplit(s: string, c: char)
    ensures Join(SplitOn(s, {c}), [c]) == s
    decreases |s|
  {
    var k := PieceEnd(s, {c});
    if k < |s| {
      var parts := SplitOn(s, {c});
      var rest := SplitOn(s[k + 1..], {c});
      assert parts == [s[..k]] + rest;
      assert parts[1..] == rest;
      JoinSplit(s[k + 1..], c);
      assert s == s[..k] + [c] + s[k + 1..];
    }
  }

  /** No character of `p` is `c`. */
  predicate FreeOf(p: string, c: char) {
    forall i | 0 <= i < |p| :: p[i] != c
  }

  /** The first piece of `p + [c] + rest`, for `p` free of `c`, is `p`; the others are those of `rest`. */
  lemma SplitFirst(p: string, c: char, rest: string)
    requires FreeOf(p, c)
    ensures SplitOn(p + [c] + rest, {c}) == [p] + SplitOn(rest, {c})
  {
    var s := p + [c] + rest;
    assert forall i | 0 <= i < |p| :: s[i] == p[i];
    PieceEndAt(s, {c}, |p|);
    assert s[..|p|] == p;
    assert s[|p| + 1..] == rest;
  }

  /** Splitting at the separator gives back separator-free pieces joined with it. */
  lemma {:induction false} SplitJoin(parts: seq<string>, c: char)
    requires parts != []
    requires forall j | 0 <= j < |parts| :: FreeOf(parts[j], c)
    ensures SplitOn(Join(parts, [c]), {c}) == parts
  {
    var p := parts[0];
    if |parts| == 1 {
      PieceEndAt(p, {c}, |p|);
    } else {
      var rest := Join(parts[1..], [c]);
      assert Join(parts, [c]) == p + [c] + rest;
      SplitFirst(p, c, rest);
      SplitJoin(parts[1..], c);
      assert parts == [p] + parts[1..];
    }
  }

  /** The number of characters of `s` in `seps`. */
  function CountIn(s: string, seps: set<char>): nat {
    if s == [] then 0 else (if s[0] in seps then 1 else 0) + CountIn(s[1..], seps)
  }

  /** A separator-free prefix holds no separator. */
  lemma {:induction false} CountInRun(s: string, seps: set<char>, k: nat)
    requires k <= |s| && forall i | 0 <= i < k :: s[i] !in seps
    ensures CountIn(s, seps) == CountIn(s[k..], seps)
  {
    if k > 0 {
      assert forall i | 0 <= i < k - 1 :: s[1..][i] == s[i + 1];
      CountInRun(s[1..], seps, k - 1);
      assert s[1..][k - 1..] == s[k..];
    }
  }

  /** n separators give n + 1 pieces. */
  lemma {:induction false} SplitCount(s: string, seps: set<char>)
    ensures |SplitOn(s, seps)| == CountIn(s, seps) + 1
    decreases |s|
  {
    var k := PieceEnd(s, seps);
    CountInRun(s, seps, k);
    if k < |s| {
      SplitCount(s[k + 1..], seps);
      assert s[k..][1..] == s[k + 1..];
    } else {
      assert s[k..] == [];
    }
  }

  /** Drops one trailing carriage return, as `str::lines` does before a newline. */
  function StripCarriageReturn(line: string): string {
    if line != [] && line[|line| - 1] == '\r' then line[..|line| - 1] else line
  }

  /**
   * Rust's `str::lines`: the text split at '\n', a final empty piece dropped,
   * and the '\r' of each "\r\n" line ending removed.
   */
  function Lines(s: string): (ls: seq<string>)
    ensures s == [] ==> ls == []
  {
    LinesOfPieces(SplitOn(s, {'\n'}))
  }

  /** The lines given the pieces between newlines: the last dropped when empty, the others without "\r". */
  function LinesOfPieces(pieces: seq<string>): (ls: seq<string>)
    requires pieces != []
    ensures |ls| == if pieces[|pieces| - 1] == [] then |pieces| - 1 else |pieces|
    ensures forall i | 0 <= i < |pieces| - 1 :: ls[i] == StripCarriageReturn(pieces[i])
    ensures pieces[|pieces| - 1] != [] ==> ls[|pieces| - 1] == pieces[|pieces| - 1]
  {
    var last := pieces[|pieces| - 1];
    var ended := pieces[..|pieces| - 1];
    var stripped := seq(|ended|, i requires 0 <= i < |ended| => StripCarriageReturn(ended[i]));
    if last == [] then stripped else stripped + [last]
  }

  /** An empty piece after separator-free pieces keeps them all separator-free. */
  lemma FreeSnocEmpty(parts: seq<string>, c: char)
    requires forall j | 0 <= j < |parts| :: FreeOf(parts[j], c)
    ensures forall j | 0 <= j < |parts + [[]]| :: FreeOf((parts + [[]])[j], c)
  {
    forall j | 0 <= j < |parts + [[]]|
      ensures FreeOf((parts + [[]])[j], c)
    {
      if j < |parts| {
        assert (parts + [[]])[j] == parts[j];
      }
    }
  }

  /** Separator-free pieces, the last of them empty, come back from their join. */
  lemma SplitJoinSnocEmpty(parts: seq<string>, c: char)
    requires parts != []
    requires forall j | 0 <= j < |parts| :: FreeOf(parts[j], c)
    ensures SplitOn(Join(parts, [c]) + [c], {c}) == parts + [[]]
  {
    JoinAppend(parts, [], [c]);
    assert Join(parts, [c]) + [c] == Join(parts + [[]], [c]);
    FreeSnocEmpty(parts, c);
    SplitJoin(parts + [[]], c);
  }

  /** Lines that each end in "\n" come back, without a "\r" before the "\n". */
  lemma LinesOfTerminated(parts: seq<string>)
    requires parts != []
    requires forall j | 0 <= j < |parts| :: FreeOf(parts[j], '\n')
    ensures |Lines(Join(parts, "\n") + "\n")| == |parts|
    ensures forall i | 0 <= i < |parts| :: Lines(Join(parts, "\n") + "\n")[i] == StripCarriageReturn(parts[i])
  {
    SplitJoinSnocEmpty(parts, '\n');
  }

  /** A last line without a final "\n" comes back as it is, even ending in "\r". */
  lemma LinesOfUnterminated(parts: seq<string>)
    requires parts != [] && parts[|parts| - 1] != []
    requires forall j | 0 <= j < |parts| :: FreeOf(parts[j], '\n')
    ensures |Lines(Join(parts, "\n"))| == |parts|
    ensures forall i | 0 <= i < |parts| - 1 :: Lines(Join(parts, "\n"))[i] == StripCarriageReturn(parts[i])
    ensures Lines(Join(parts, "\n"))[|parts| - 1] == parts[|parts| - 1]
  {
    SplitJoin(parts, '\n');
  }

  /** Joining one more part adds the separator and the part. */
  lemma {:induction false} JoinAppend(parts: seq<string>, p: string, sep: string)
    requires parts != []
    ensures Join(parts + [p], sep) == Join(parts, sep) + sep + p
  {
    if |parts| > 1 {
      assert (parts + [p])[1..] == parts[1..] + [p];
      JoinAppend(parts[1..], p, sep);
    }
  }

  /** `parts` joined with `sep` between consecutive elements (`[..].join(sep)`). */
  function Join(parts: seq<string>, sep: string): (r: string)
    ensures parts == [] ==> r == []
    ensures |parts| == 1 ==> r == parts[0]
  {
    if parts == [] then []
    else if |parts| == 1 then parts[0]
    else parts[0] + sep + Join(parts[1..], sep)
  }

  /** The concatenation of `parts`. */
  function Concat(parts: seq<string>): string {
    if parts == [] then [] else parts[0] + Concat(parts[1..])
  }

  /** Appending a part appends its text. */
  lemma {:induction false} ConcatAppend(parts: seq<string>, p: string)
    ensures Concat(parts + [p]) == Concat(parts) + p
  {
    if parts != [] {
      assert (parts + [p])[1..] == parts[1..] + [p];
      ConcatAppend(parts[1..], p);
    }
  }

  /** The concatenation is empty exactly when every part is. */
  lemma {:induction false} ConcatEmptyIff(parts: seq<string>)
    ensures Concat(parts) == [] <==> forall i | 0 <= i < |parts| :: parts[i] == []
  {
    if parts != [] {
      ConcatEmptyIff(parts[1..]);
      assert forall i | 1 <= i < |parts| :: parts[i] == parts[1..][i - 1];
    }
  }

  function DigitChar(d: nat): (c: char)
    requires d < 10
    ensures '0' <= c <= '9'
  {
    ('0' as int + d) as char
  }

  /** Decimal representation of `n`, as Rust's `{}` formatting of an integer: no leading zero. */
  function NatToString(n: nat): (r: string)
    ensures r != []
    ensures forall i | 0 <= i < |r| :: '0' <= r[i] <= '9'
    ensures n > 0 ==> r[0] != '0'
  {
    if n < 10 then [DigitChar(n)] else NatToString(n / 10) + [DigitChar(n % 10)]
  }

  /** The number a string of decimal digits denotes. */
  function DecimalValue(s: string): nat
    requires forall i | 0 <= i < |s| :: '0' <= s[i] <= '9'
  {
    if s == [] then 0 else 10 * DecimalValue(s[..|s| - 1]) + (s[|s| - 1] as int - '0' as int)
  }

  /** The digits read back as the number printed. */
  lemma {:induction false} NatToStringValue(n: nat)
    ensures DecimalValue(NatToString(n)) == n
  {
    var r := NatToString(n);
    if n >= 10 {
      NatToStringValue(n / 10);
      assert r[..|r| - 1] == NatToString(n / 10);
    }
  }
}
